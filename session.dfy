/**
 * The interactive session: the result-count prompt of get_results and the control loop
 * that alternates between asking for a search term and asking for a selection.
 */
module Session {
  import opened Wrappers
  import opened Strings
  import opened Records
  import opened Console
  import opened Listing

  /** The search API, as the results it returns for a term and a result limit. */
  type Catalog = (string, int) -> seq<RawRecord>

  // ---------------------------------------------------------------------------
  // The result-count prompt

  /** An answer the prompt accepts: an integer from 1 to 50. */
  predicate ValidCount(s: string) {
    ParseInt(s).Some? && 1 <= ParseInt(s).value <= 50
  }

  /** The message printed for a refused answer. */
  function Rejection(s: string): Line {
    if ParseInt(s).None? then NotANumber else OutOfRange
  }

  /** The accepted count (None if the input ran out), how many answers were read, and the messages printed. */
  datatype CountResult = CountResult(count: Option<int>, used: nat, messages: seq<Line>)

  /** The prompt loop on the answers `ins`: it asks again until an answer is valid. */
  function CountPrompt(ins: seq<string>): (c: CountResult)
    ensures c.used <= |ins|
  {
    if ins == [] then CountResult(None, 0, [])
    else if ValidCount(ins[0]) then CountResult(Some(ParseInt(ins[0]).value), 1, [])
    else
      var c := CountPrompt(ins[1..]);
      CountResult(c.count, c.used + 1, [Rejection(ins[0])] + c.messages)
  }

  /**
   * The prompt accepts the first valid answer, or reads every answer when none is valid;
   * every answer before the accepted one is refused with its message, in order.
   */
  lemma {:induction false} CountPromptSpec(ins: seq<string>)
    ensures var c := CountPrompt(ins);
      && (c.count.Some? ==>
            0 < c.used && ValidCount(ins[c.used - 1]) && c.count.value == ParseInt(ins[c.used - 1]).value
            && 1 <= c.count.value <= 50)
      && (c.count.None? ==> c.used == |ins|)
      && |c.messages| == (if c.count.Some? then c.used - 1 else c.used)
      && (forall j :: 0 <= j < |c.messages| ==> !ValidCount(ins[j]) && c.messages[j] == Rejection(ins[j]))
  {
    if ins != [] && !ValidCount(ins[0]) {
      CountPromptSpec(ins[1..]);
      var c := CountPrompt(ins[1..]);
      assert forall j :: 1 <= j < 1 + |c.messages| ==> ins[j] == ins[1..][j - 1];
    }
  }

  /** The prompt after `k` refused answers that printed `msgs`. */
  function After(k: nat, msgs: seq<Line>, c: CountResult): CountResult {
    CountResult(c.count, k + c.used, msgs + c.messages)
  }

  lemma CountPromptRefuses(ins: seq<string>)
    requires ins != [] && !ValidCount(ins[0])
    ensures CountPrompt(ins) == After(1, [Rejection(ins[0])], CountPrompt(ins[1..]))
  {
  }

  lemma AfterAfter(k: nat, msgs: seq<Line>, m: Line, c: CountResult)
    ensures After(k, msgs, After(1, [m], c)) == After(k + 1, msgs + [m], c)
  {
  }

  /** Printing and appending one more shown record extends the pass's output and list by it. */
  lemma EntryShown(shown: seq<Shown>, x: Shown, start: nat,
                   before: seq<Line>, out: seq<Line>, out': seq<Line>,
                   list0: seq<RawRecord>, list: seq<RawRecord>, list': seq<RawRecord>)
    requires out == before + Number(shown, start)
    requires out' == out + [Entry(start + |shown| + 1, x.view)]
    requires list == list0 + RecordsOf(shown) && list' == list + [x.record]
    ensures out' == before + Number(shown + [x], start)
    ensures list' == list0 + RecordsOf(shown + [x])
  {
    NumberAppend(shown, [x], start);
    RecordsOfAppend(shown, [x]);
  }

  /** Printing report `b` after report `a` prints and appends what `Then(a, b)` says. */
  lemma ThenPrinted(a: Report, b: Report, out0: seq<Line>, out: seq<Line>,
                    list0: seq<RawRecord>, list: seq<RawRecord>)
    requires a.fault.None?
    requires out == out0 + a.lines + b.lines && list == list0 + RecordsOf(a.shown) + RecordsOf(b.shown)
    ensures out == out0 + Then(a, b).lines && list == list0 + RecordsOf(Then(a, b).shown)
  {
    RecordsOfAppend(a.shown, b.shown);
  }

  /** The Songs and the Movies sections of a listing, as far as they run. */
  ghost function Leading(songs: Pass, movies: Pass): Report {
    Then(SectionReport(Songs, songs, 0), SectionReport(Movies, movies, |songs.shown|))
  }

  /** A listing is its leading sections, then the other media section and the closing notice. */
  lemma CombineOfLeading(songs: Pass, movies: Pass, others: Pass)
    ensures Leading(songs, movies).fault.Some? ==> Combine(songs, movies, others) == Leading(songs, movies)
    ensures Leading(songs, movies).fault.None? ==>
      && |Leading(songs, movies).shown| == |songs.shown| + |movies.shown|
      && Combine(songs, movies, others)
         == Close(Then(Leading(songs, movies), SectionReport(OtherMedia, others, |Leading(songs, movies).shown|)))
  {
  }

  /** Printing the closing notice after a report prints what `Close(r)` says. */
  lemma ClosePrinted(r: Report, out0: seq<Line>, out: seq<Line>)
    requires r.fault.None?
    requires out == out0 + r.lines + (if |r.shown| == 0 then [NoResults] else [])
    ensures out == out0 + Close(r).lines
  {
  }

  lemma CountExamples()
    ensures !ValidCount("0") && !ValidCount("51") && !ValidCount("abc")
    ensures ValidCount("1") && ValidCount("50")
    ensures CountPrompt(["0", "51", "abc", "7"]) == CountResult(Some(7), 4, [OutOfRange, OutOfRange, NotANumber])
  {
    assert "51"[..1] == "5";
    assert "50"[..1] == "5";
    assert ParseInt("7") == Some(7);
    assert ParseInt("0") == Some(0);
    assert ParseInt("51") == Some(51);
    assert ParseInt("abc") == None by { assert !IsDigit('a'); }
    assert ["0", "51", "abc", "7"][1..] == ["51", "abc", "7"];
    assert ["51", "abc", "7"][1..] == ["abc", "7"];
    assert ["abc", "7"][1..] == ["7"];
  }

  // ---------------------------------------------------------------------------
  // Session states

  /** Why the program stopped without "exit": input() hit end of input, or an uncaught exception. */
  datatype Halt = InputExhausted | RecordFault(error: Error)

  datatype Phase = Running | Exited | Halted(reason: Halt)

  /**
   * Everything the control loop changes: the result list, the printed lines, the console
   * input not yet read, the URLs handed to the browser, and whether the loop still runs.
   */
  datatype State = State(mediaList: seq<RawRecord>, output: seq<Line>, input: seq<string>,
                         launched: seq<Value>, phase: Phase)

  datatype Mode = AwaitingTerm | AwaitingSelection | Terminated

  /** An empty result list means the loop asks for a search term; a non-empty one, for a selection. */
  function ModeOf(s: State): Mode {
    if s.phase != Running then Terminated
    else if s.mediaList == [] then AwaitingTerm
    else AwaitingSelection
  }

  /** get_results(term): prompt for a count, fetch, list and append; an exception stops the program. */
  function Search(s: State, term: string, catalog: Catalog): State {
    var c := CountPrompt(s.input);
    var s1 := s.(input := s.input[c.used..], output := s.output + c.messages);
    if c.count.None? then s1.(phase := Halted(InputExhausted))
    else
      var l := ListAll(catalog(term, c.count.value));
      s1.(output := s1.output + l.lines,
          mediaList := s.mediaList + RecordsOf(l.shown),
          phase := if l.fault.Some? then Halted(RecordFault(l.fault.value)) else s.phase)
  }

  /** Python's `xs[i]` on a list of length `len`: negative indices count from the end. */
  function PyIndex(len: nat, i: int): (r: Option<nat>)
    ensures r.Some? <==> -(len as int) <= i < len
    ensures r.Some? ==> r.value < len && r.value == (if i >= 0 then i else len + i)
  {
    if 0 <= i < len then Some(i)
    else if -(len as int) <= i < 0 then Some(len + i)
    else None
  }

  /** The URL a record is opened with: trackViewUrl, else collectionViewUrl; None if it has neither. */
  function UrlOf(r: RawRecord): Option<Value> {
    if "trackViewUrl" in r then Some(r["trackViewUrl"])
    else if "collectionViewUrl" in r then Some(r["collectionViewUrl"])
    else None
  }

  /** The URL selected by number `num` (1-based, `media_list[num-1]`), or None where Python raises. */
  function Selection(list: seq<RawRecord>, num: int): Option<Value> {
    match PyIndex(|list|, num - 1)
    case None => None
    case Some(i) => UrlOf(list[i])
  }

  /** One iteration of the control loop. */
  function StepSpec(s: State, catalog: Catalog): (t: State)
    requires s.phase == Running
    ensures |t.input| <= |s.input|
    ensures t.phase == Running ==> |t.input| < |s.input|
  {
    if s.input == [] then s.(phase := Halted(InputExhausted))
    else
      var line := s.input[0];
      var s1 := s.(input := s.input[1..]);
      if line == "exit" then s1.(output := s1.output + [Bye], phase := Exited)
      else if s.mediaList == [] then Search(s1, line, catalog)
      else match ParseInt(line)
        case None => Search(s1.(mediaList := []), line, catalog)
        case Some(num) =>
          var s2 := s1.(output := s1.output + [Launching]);
          match Selection(s.mediaList, num)
          case Some(url) =>
            s2.(output := s2.output + [UrlLine(url), InBrowser], launched := s2.launched + [url])
          case None => Search(s2.(mediaList := []), line, catalog)
  }

  /** The control loop run until it stops. */
  function RunSpec(s: State, catalog: Catalog): (t: State)
    ensures t.phase != Running
    ensures |t.input| <= |s.input|
    decreases |s.input| + (if s.phase == Running then 1 else 0)
  {
    if s.phase != Running then s else RunSpec(StepSpec(s, catalog), catalog)
  }

  // ---------------------------------------------------------------------------
  // Properties of the control loop

  /** "exit" ends the loop in either mode, before any parsing, keeping the list as it was. */
  lemma ExitTerminates(s: State, catalog: Catalog)
    requires s.phase == Running && s.input != [] && s.input[0] == "exit"
    ensures var t := StepSpec(s, catalog);
      && t.phase == Exited && ModeOf(t) == Terminated
      && t.output == s.output + [Bye] && t.mediaList == s.mediaList && t.launched == s.launched
      && t.input == s.input[1..]
  {
  }

  /** The answer "exit" is not a number, so it never reaches the selection. */
  lemma ExitIsNotANumber()
    ensures ParseInt("exit") == None
  {
    assert !IsDigit("exit"[0]);
  }

  /**
   * A number that picks an entry of a non-empty list launches that entry's trackViewUrl, else
   * its collectionViewUrl, and keeps the list, so the loop goes on asking for a selection.
   */
  lemma SelectionResolves(s: State, catalog: Catalog, num: int)
    requires s.phase == Running && s.input != [] && s.mediaList != []
    requires ParseInt(s.input[0]) == Some(num) && 1 <= num <= |s.mediaList|
    requires "trackViewUrl" in s.mediaList[num - 1] || "collectionViewUrl" in s.mediaList[num - 1]
    ensures var t := StepSpec(s, catalog);
      var r := s.mediaList[num - 1];
      var url := if "trackViewUrl" in r then r["trackViewUrl"] else r["collectionViewUrl"];
      && t.mediaList == s.mediaList && t.phase == Running && ModeOf(t) == AwaitingSelection
      && t.output == s.output + [Launching, UrlLine(url), InBrowser]
      && t.launched == s.launched + [url] && t.input == s.input[1..]
  {
    ExitIsNotANumber();
  }

  /** Selecting 0 reads `media_list[-1]`: the last entry of the list, not an error. */
  lemma ZeroSelectsLast(s: State, catalog: Catalog)
    requires s.phase == Running && s.input != [] && s.mediaList != []
    requires ParseInt(s.input[0]) == Some(0)
    requires UrlOf(s.mediaList[|s.mediaList| - 1]).Some?
    ensures var t := StepSpec(s, catalog);
      var url := UrlOf(s.mediaList[|s.mediaList| - 1]).value;
      && t.mediaList == s.mediaList && t.output == s.output + [Launching, UrlLine(url), InBrowser]
      && t.launched == s.launched + [url]
  {
    ExitIsNotANumber();
  }

  /** A selection fails exactly when the index is outside Python's range or the entry has no URL. */
  lemma SelectionFails(list: seq<RawRecord>, num: int)
    ensures Selection(list, num).None? <==>
      || !(-(|list| as int) < num <= |list|)
      || var r := list[if num >= 1 then num - 1 else |list| + num - 1];
         "trackViewUrl" !in r && "collectionViewUrl" !in r
  {
  }

  /** With a non-empty list, an answer that is not a number empties the list and is searched for. */
  lemma NotANumberSearches(s: State, catalog: Catalog)
    requires s.phase == Running && s.input != [] && s.mediaList != [] && s.input[0] != "exit"
    requires ParseInt(s.input[0]).None?
    ensures StepSpec(s, catalog) == Search(s.(input := s.input[1..], mediaList := []), s.input[0], catalog)
  {
  }

  /** A number that selects nothing prints "Launching", empties the list and is searched for. */
  lemma UnresolvedSearches(s: State, catalog: Catalog, num: int)
    requires s.phase == Running && s.input != [] && s.mediaList != []
    requires ParseInt(s.input[0]) == Some(num) && Selection(s.mediaList, num).None?
    ensures StepSpec(s, catalog)
      == Search(s.(input := s.input[1..], mediaList := [], output := s.output + [Launching]), s.input[0], catalog)
  {
    ExitIsNotANumber();
  }

  /**
   * A search from an empty list: entry k (1-based) of what it prints is the k-th record of the
   * new list, shown through the object its section's class builds from it.
   */
  lemma SearchNumbersPositions(s: State, term: string, catalog: Catalog)
    requires s.mediaList == []
    requires CountPrompt(s.input).count.Some?
    ensures var c := CountPrompt(s.input);
      var l := ListAll(catalog(term, c.count.value));
      var t := Search(s, term, catalog);
      var printed := t.output[|s.output| + |c.messages|..];
      && printed == l.lines && t.mediaList == RecordsOf(l.shown)
      && |Entries(printed)| == |t.mediaList|
      && forall k :: 0 <= k < |t.mediaList| ==>
           Entries(printed)[k] == Entry(k + 1, l.shown[k].view) && t.mediaList[k] == l.shown[k].record
  {
    var c := CountPrompt(s.input);
    ListingNumbers(catalog(term, c.count.value));
  }

  /**
   * The k-th entry a search from an empty list prints reads "k " followed by the info() of the
   * k-th record of the new list, and its number parses back to k.
   */
  lemma SearchEntryTexts(s: State, term: string, catalog: Catalog, k: nat)
    requires s.mediaList == []
    requires CountPrompt(s.input).count.Some?
    requires 0 < k <= |Search(s, term, catalog).mediaList|
    ensures var c := CountPrompt(s.input);
      |Entries(Search(s, term, catalog).output[|s.output| + |c.messages|..])| == |Search(s, term, catalog).mediaList|
    ensures var c := CountPrompt(s.input);
      var l := ListAll(catalog(term, c.count.value));
      var t := Search(s, term, catalog);
      var text := Text(Entries(t.output[|s.output| + |c.messages|..])[k - 1]);
      && text == NatToString(k) + " " + Info(l.shown[k - 1].view)
      && t.mediaList[k - 1] == l.shown[k - 1].record
      && ParseInt(text[..|NatToString(k)|]) == Some(k)
  {
    var c := CountPrompt(s.input);
    var l := ListAll(catalog(term, c.count.value));
    SearchNumbersPositions(s, term, catalog);
    EntryNumberReadable(k, l.shown[k - 1].view);
  }

  /**
   * A search from term entry that shows nothing and raises nothing prints the "no results"
   * notice and leaves the loop asking for a term again; one that shows something, for a selection.
   */
  lemma EmptySearchAwaitsTerm(s: State, term: string, catalog: Catalog)
    requires s.phase == Running && s.mediaList == []
    requires CountPrompt(s.input).count.Some?
    requires ListAll(catalog(term, CountPrompt(s.input).count.value)).fault.None?
    ensures var c := CountPrompt(s.input);
      var t := Search(s, term, catalog);
      && t.phase == Running
      && (ModeOf(t) == AwaitingTerm <==> NoResults in t.output[|s.output| + |c.messages|..])
      && (ModeOf(t) == AwaitingSelection <==> NoResults !in t.output[|s.output| + |c.messages|..])
  {
    var c := CountPrompt(s.input);
    NoResultsIff(catalog(term, c.count.value));
  }

  // ---------------------------------------------------------------------------
  // The session as an object

  class Session {
    var mediaList: seq<RawRecord>
    var output: seq<Line>
    var input: seq<string>
    var launched: seq<Value>
    var phase: Phase
    const catalog: Catalog

    function Snapshot(): State
      reads this
    {
      State(mediaList, output, input, launched, phase)
    }

    constructor (input: seq<string>, catalog: Catalog)
      ensures Snapshot() == State([], [], input, [], Running)
      ensures this.catalog == catalog
    {
      mediaList := [];
      output := [];
      this.input := input;
      launched := [];
      phase := Running;
      this.catalog := catalog;
    }

    /** input(): the next console line, or None at end of input. */
    method ReadLine() returns (line: Option<string>)
      modifies this`input
      ensures old(input) == [] ==> line == None && input == []
      ensures old(input) != [] ==> line == Some(old(input)[0]) && input == old(input)[1..]
    {
      if input == [] {
        line := None;
      } else {
        line := Some(input[0]);
        input := input[1..];
      }
    }

    /** The prompt loop of get_results: read answers until one is an integer in [1, 50]. */
    method ReadCount() returns (count: Option<int>)
      modifies this`input, this`output
      ensures var c := CountPrompt(old(input));
        count == c.count && input == old(input)[c.used..] && output == old(output) + c.messages
    {
      ghost var k := 0;
      ghost var msgs: seq<Line> := [];
      while true
        invariant k <= |old(input)| && input == old(input)[k..]
        invariant output == old(output) + msgs
        invariant CountPrompt(old(input)) == After(k, msgs, CountPrompt(input))
        decreases |input|
      {
        ghost var before := input;
        var answer := ReadLine();
        if answer.None? {
          return None;
        }
        var s := answer.value;
        var n := ParseInt(s);
        if n.Some? && 1 <= n.value <= 50 {
          return n;
        }
        if n.None? {
          output := output + [NotANumber];
        } else {
          output := output + [OutOfRange];
        }
        ghost var m := Rejection(s);
        CountPromptRefuses(before);
        AfterAfter(k, msgs, m, CountPrompt(input));
        assert old(input)[k..][1..] == old(input)[k + 1..];
        msgs, k := msgs + [m], k + 1;
      }
    }

    /**
     * The loop body of a pass for one record: the section tests, then, for a record of the
     * section, the view's constructor, the numbered line and the append.
     */
    method ShowRecord(sec: Section, r: RawRecord, numMedia: nat) returns (v: Result<Option<View>, Error>)
      modifies this`output, this`mediaList
      ensures v == Visit(sec, r)
      ensures v.Success? && v.value.Some? ==>
        output == old(output) + [Entry(numMedia + 1, v.value.value)] && mediaList == old(mediaList) + [r]
      ensures !(v.Success? && v.value.Some?) ==> output == old(output) && mediaList == old(mediaList)
    {
      var member := Member(sec, r);
      if member.Failure? {
        return Failure(member.error);
      }
      if !member.value {
        return Success(None);
      }
      var view := Render(sec, r);
      if view.Failure? {
        return Failure(view.error);
      }
      output := output + [Entry(numMedia + 1, view.value)];
      mediaList := mediaList + [r];
      return Success(Some(view.value));
    }

    /** The record at `i` of a pass that has not stopped before it, and what that does to the pass. */
    method ShowStep(sec: Section, results: seq<RawRecord>, i: nat, next: nat, ghost shown: seq<Shown>)
      returns (v: Result<Option<View>, Error>)
      modifies this`output, this`mediaList
      requires i < |results| && Scan(sec, results[..i]) == Pass(shown, None)
      ensures v.Failure? ==> Scan(sec, results) == Pass(shown, Some(v.error))
      ensures v.Success? && v.value.None? ==> Scan(sec, results[..i + 1]) == Pass(shown, None)
      ensures v.Success? && v.value.Some? ==>
        Scan(sec, results[..i + 1]) == Pass(shown + [Shown(results[i], v.value.value)], None)
      ensures v.Success? && v.value.Some? ==>
        output == old(output) + [Entry(next + 1, v.value.value)] && mediaList == old(mediaList) + [results[i]]
      ensures !(v.Success? && v.value.Some?) ==> output == old(output) && mediaList == old(mediaList)
    {
      v := ShowRecord(sec, results[i], next);
      if v.Failure? {
        ScanFails(sec, results, i);
      } else {
        ScanExtend(sec, results, i);
      }
    }

    /**
     * The loop of one pass of get_results: a numbered line and an append per record of the
     * section; `count` is the number of records shown, `shown` what they were.
     */
    method ShowEntries(sec: Section, results: seq<RawRecord>, numMedia: nat)
      returns (count: nat, fault: Option<Error>, ghost shown: seq<Shown>)
      modifies this`output, this`mediaList
      ensures Scan(sec, results) == Pass(shown, fault) && count == |shown|
      ensures output == old(output) + Number(shown, numMedia)
      ensures mediaList == old(mediaList) + RecordsOf(shown)
    {
      count, shown := 0, [];
      var i := 0;
      while i < |results|
        invariant 0 <= i <= |results|
        invariant Scan(sec, results[..i]) == Pass(shown, None) && count == |shown|
        invariant output == old(output) + Number(shown, numMedia)
        invariant mediaList == old(mediaList) + RecordsOf(shown)
      {
        ghost var out, list := output, mediaList;
        var v := ShowStep(sec, results, i, numMedia + count, shown);
        if v.Failure? {
          return count, Some(v.error), shown;
        }
        if v.value.Some? {
          ghost var x := Shown(results[i], v.value.value);
          EntryShown(shown, x, numMedia, old(output), out, output, old(mediaList), list, mediaList);
          shown := shown + [x];
          count := count + 1;
        }
        i := i + 1;
      }
      assert results[..i] == results;
      fault := None;
    }

    /**
     * One of the three passes of get_results: the heading, the pass's entries and, when it
     * showed nothing, the "none" notice; `numMedia` is the running entry number.
     */
    method ShowSection(sec: Section, results: seq<RawRecord>, numMedia: nat) returns (next: nat, fault: Option<Error>)
      modifies this`output, this`mediaList
      ensures output == old(output) + SectionReport(sec, Scan(sec, results), numMedia).lines
      ensures mediaList == old(mediaList) + RecordsOf(Scan(sec, results).shown)
      ensures next == numMedia + |Scan(sec, results).shown|
      ensures fault == Scan(sec, results).fault
    {
      output := output + [Heading(sec)];
      var numInSection;
      ghost var shown;
      numInSection, fault, shown := ShowEntries(sec, results, numMedia);
      if fault.None? && numInSection < 1 {
        output := output + [NoneFound(sec)];
      }
      next := numMedia + numInSection;
    }

    /** The Songs and the Movies passes of get_results, as far as they run. */
    method ShowLeading(results: seq<RawRecord>) returns (numMedia: nat, fault: Option<Error>)
      modifies this`output, this`mediaList
      ensures output == old(output) + Leading(Scan(Songs, results), Scan(Movies, results)).lines
      ensures mediaList == old(mediaList) + RecordsOf(Leading(Scan(Songs, results), Scan(Movies, results)).shown)
      ensures fault == Leading(Scan(Songs, results), Scan(Movies, results)).fault
      ensures fault.None? ==> numMedia == |Leading(Scan(Songs, results), Scan(Movies, results)).shown|
    {
      ghost var a := SectionReport(Songs, Scan(Songs, results), 0);
      ghost var b := SectionReport(Movies, Scan(Movies, results), |Scan(Songs, results).shown|);
      ghost var out0, list0 := output, mediaList;
      numMedia, fault := ShowSection(Songs, results, 0);
      if fault.Some? {
        return;
      }
      numMedia, fault := ShowSection(Movies, results, numMedia);
      ThenPrinted(a, b, out0, output, list0, mediaList);
    }

    /** The three passes of get_results over the fetched `results`, and the closing notice. */
    method ShowAll(results: seq<RawRecord>) returns (fault: Option<Error>)
      modifies this`output, this`mediaList
      ensures output == old(output) + ListAll(results).lines
      ensures mediaList == old(mediaList) + RecordsOf(ListAll(results).shown)
      ensures fault == ListAll(results).fault
    {
      ghost var out0, list0 := output, mediaList;
      var numMedia;
      numMedia, fault := ShowLeading(results);
      CombineOfLeading(Scan(Songs, results), Scan(Movies, results), Scan(OtherMedia, results));
      if fault.Some? {
        return;
      }
      ghost var l := Leading(Scan(Songs, results), Scan(Movies, results));
      ghost var c := SectionReport(OtherMedia, Scan(OtherMedia, results), numMedia);
      numMedia, fault := ShowSection(OtherMedia, results, numMedia);
      ThenPrinted(l, c, out0, output, list0, mediaList);
      if fault.Some? {
        return;
      }
      if numMedia < 1 {
        output := output + [NoResults];
      }
      ClosePrinted(Then(l, c), out0, output);
    }

    /** get_results(name) without the HTTP request: the request is `catalog`. */
    method GetResults(name: string)
      modifies this
      ensures Snapshot() == Search(old(Snapshot()), name, catalog)
    {
      var count := ReadCount();
      if count.None? {
        phase := Halted(InputExhausted);
        return;
      }
      var results := catalog(name, count.value);
      var fault := ShowAll(results);
      if fault.Some? {
        phase := Halted(RecordFault(fault.value));
      }
    }

    /** One iteration of the `while True` loop of the main program. */
    method Step()
      requires phase == Running
      modifies this
      ensures Snapshot() == StepSpec(old(Snapshot()), catalog)
    {
      var answer := ReadLine();
      if answer.None? {
        phase := Halted(InputExhausted);
        return;
      }
      var line := answer.value;
      if mediaList == [] {
        if line == "exit" {
          output := output + [Bye];
          phase := Exited;
        } else {
          GetResults(line);
        }
      } else {
        if line == "exit" {
          output := output + [Bye];
          phase := Exited;
          return;
        }
        var num := ParseInt(line);
        if num.None? {
          mediaList := [];
          GetResults(line);
          return;
        }
        output := output + [Launching];
        var url := Selection(mediaList, num.value);
        if url.Some? {
          output := output + [UrlLine(url.value), InBrowser];
          launched := launched + [url.value];
        } else {
          mediaList := [];
          GetResults(line);
        }
      }
    }

    /** The main program's loop, until "exit", end of input or an uncaught exception. */
    method Run()
      requires phase == Running
      modifies this
      ensures Snapshot() == RunSpec(old(Snapshot()), catalog)
      ensures phase != Running
    {
      while phase == Running
        invariant RunSpec(Snapshot(), catalog) == RunSpec(old(Snapshot()), catalog)
        decreases |input| + (if phase == Running then 1 else 0)
      {
        Step();
      }
    }
  }
}
