/**
 * The listing pass of get_results: three independent passes over the search results
 * (songs, movies, other media) that print numbered summaries and collect the shown
 * records in display order.
 */
module Listing {
  import opened Wrappers
  import opened Strings
  import opened Records
  import opened Console

  predicate IsTrack(r: RawRecord) {
    "wrapperType" in r && r["wrapperType"] == Str("track")
  }

  /** The section tests can be evaluated: wrapperType is present, and a track's kind is a string. */
  predicate Classifiable(r: RawRecord) {
    "wrapperType" in r && (IsTrack(r) ==> "kind" in r && r["kind"].Str?)
  }

  /** The tests one pass applies to a record; a failure is the exception they raise. */
  function Member(sec: Section, r: RawRecord): (res: Result<bool, Error>)
    ensures res.Success? <==> Classifiable(r)
    ensures res.Failure? ==> Blames(r, res.error)
  {
    if "wrapperType" !in r then Failure(MissingKey("wrapperType"))
    else if r["wrapperType"] != Str("track") then Success(sec == OtherMedia)
    else if "kind" !in r then Failure(MissingKey("kind"))
    else if !r["kind"].Str? then Failure(NotIterable("kind"))
    else
      var kind := r["kind"].s;
      match sec
      case Songs => Success(Contains(kind, "song"))
      case Movies => Success(Contains(kind, "feature-movie"))
      case OtherMedia => Success(!Contains(kind, "song") && !Contains(kind, "feature-movie"))
  }

  /** Whether a classifiable record belongs to a section. */
  predicate InSection(sec: Section, r: RawRecord)
    requires Classifiable(r)
  {
    Member(sec, r).value
  }

  /**
   * The bucket rules: SONGS takes tracks whose kind contains "song", MOVIES tracks whose
   * kind contains "feature-movie", OTHER everything else. Every record lands somewhere,
   * OTHER is disjoint from the other two, and SONGS and MOVIES may overlap.
   */
  lemma BucketRules(r: RawRecord)
    requires Classifiable(r)
    ensures InSection(Songs, r) <==> IsTrack(r) && Contains(r["kind"].s, "song")
    ensures InSection(Movies, r) <==> IsTrack(r) && Contains(r["kind"].s, "feature-movie")
    ensures InSection(OtherMedia, r) <==>
      !IsTrack(r) || (!Contains(r["kind"].s, "song") && !Contains(r["kind"].s, "feature-movie"))
    ensures InSection(OtherMedia, r) <==> !InSection(Songs, r) && !InSection(Movies, r)
    ensures InSection(Songs, r) || InSection(Movies, r) || InSection(OtherMedia, r)
  {
  }

  /** A track whose kind names both a song and a feature movie is listed in both sections. */
  lemma SongAndMovieOverlap()
    ensures var r := map["wrapperType" := Str("track"), "kind" := Str("song/feature-movie")];
      InSection(Songs, r) && InSection(Movies, r) && !InSection(OtherMedia, r)
  {
    var r := map["wrapperType" := Str("track"), "kind" := Str("song/feature-movie")];
    assert OccursAt(r["kind"].s, "song", 0);
    assert OccursAt(r["kind"].s, "feature-movie", 5);
    ContainsSpec(r["kind"].s, "song");
    ContainsSpec(r["kind"].s, "feature-movie");
  }

  /** The object a pass builds for a record of its section: an instance of that section's class. */
  function Render(sec: Section, r: RawRecord): Result<View, Error> {
    match sec
    case Songs => NewSong(DEFAULT_BASE, DEFAULT_ALBUM, DEFAULT_GENRE, 0, Some(r))
    case Movies => NewMovie(DEFAULT_BASE, DEFAULT_RATING, 0, Some(r))
    case OtherMedia => NewMedia(DEFAULT_BASE, Some(r))
  }

  /** One iteration of a pass: None if the record is skipped, the object built for it if it is shown. */
  function Visit(sec: Section, r: RawRecord): Result<Option<View>, Error> {
    var m :- Member(sec, r);
    if !m then Success(None)
    else
      var t :- Render(sec, r);
      Success(Some(t))
  }

  /** A record a pass showed, with the object built for it; the entry printed is that object's info(). */
  datatype Shown = Shown(record: RawRecord, view: View)

  /** The outcome of a pass so far: what it showed, and the exception that stopped it, if any. */
  datatype Pass = Pass(shown: seq<Shown>, fault: Option<Error>)

  /** A pass over `rs`, one record after another, stopping at the first exception. */
  function Scan(sec: Section, rs: seq<RawRecord>): Pass
    decreases |rs|
  {
    if rs == [] then Pass([], None)
    else
      var p := Scan(sec, rs[..|rs| - 1]);
      if p.fault.Some? then p
      else match Visit(sec, rs[|rs| - 1])
        case Failure(e) => Pass(p.shown, Some(e))
        case Success(None) => p
        case Success(Some(t)) => Pass(p.shown + [Shown(rs[|rs| - 1], t)], None)
  }

  function RecordsOf(shown: seq<Shown>): (rs: seq<RawRecord>)
    ensures |rs| == |shown|
  {
    seq(|shown|, i requires 0 <= i < |shown| => shown[i].record)
  }

  /** The records of `rs` in section `sec`, in their order: the reference for what a pass shows. */
  function Select(sec: Section, rs: seq<RawRecord>): seq<RawRecord>
    decreases |rs|
  {
    if rs == [] then []
    else Select(sec, rs[..|rs| - 1]) + (if Member(sec, rs[|rs| - 1]) == Success(true) then [rs[|rs| - 1]] else [])
  }

  /** The numbered entry lines for shown records, counting on from `start`. */
  function Number(shown: seq<Shown>, start: nat): (ls: seq<Line>)
    ensures |ls| == |shown|
  {
    seq(|shown|, i requires 0 <= i < |shown| => Entry(start + i + 1, shown[i].view))
  }

  /** What get_results prints and appends, and the exception that stopped it, if any. */
  datatype Report = Report(lines: seq<Line>, shown: seq<Shown>, fault: Option<Error>)

  /** One section printed from its pass: heading, entries numbered on from `start`, and "none" notice. */
  function SectionReport(sec: Section, p: Pass, start: nat): Report {
    var notice := if p.fault.None? && |p.shown| == 0 then [NoneFound(sec)] else [];
    Report([Heading(sec)] + Number(p.shown, start) + notice, p.shown, p.fault)
  }

  /** Report `b` printed after report `a`, unless an exception stopped `a`. */
  function Then(a: Report, b: Report): Report {
    if a.fault.Some? then a else Report(a.lines + b.lines, a.shown + b.shown, b.fault)
  }

  /** The closing "no results" notice, after a listing that ran to the end and showed nothing. */
  function Close(r: Report): Report {
    if r.fault.None? && |r.shown| == 0 then Report(r.lines + [NoResults], r.shown, None) else r
  }

  /** The three sections in order, numbered consecutively; a stopped pass ends the listing. */
  function Combine(songs: Pass, movies: Pass, others: Pass): Report {
    var a := SectionReport(Songs, songs, 0);
    var b := SectionReport(Movies, movies, |songs.shown|);
    var c := SectionReport(OtherMedia, others, |songs.shown| + |movies.shown|);
    Close(Then(Then(a, b), c))
  }

  /** What get_results prints and appends for the search results `rs`. */
  function ListAll(rs: seq<RawRecord>): Report {
    Combine(Scan(Songs, rs), Scan(Movies, rs), Scan(OtherMedia, rs))
  }

  /** The entry lines among printed lines, in order. */
  function Entries(ls: seq<Line>): seq<Line> {
    if ls == [] then [] else (if ls[0].Entry? then [ls[0]] else []) + Entries(ls[1..])
  }

  // ---------------------------------------------------------------------------
  // Properties of a pass

  /** A pass runs to the end exactly when no record of `rs` raises. */
  lemma {:induction false} ScanFaultFree(sec: Section, rs: seq<RawRecord>)
    ensures Scan(sec, rs).fault.None? <==> forall i :: 0 <= i < |rs| ==> Visit(sec, rs[i]).Success?
    decreases |rs|
  {
    if rs != [] {
      var init := rs[..|rs| - 1];
      ScanFaultFree(sec, init);
      assert Scan(sec, rs).fault.None? <==> Scan(sec, init).fault.None? && Visit(sec, rs[|rs| - 1]).Success?;
      assert forall i :: 0 <= i < |init| ==> init[i] == rs[i];
    }
  }

  /** A pass that runs to the end shows exactly the section's records, in API order. */
  lemma {:induction false} ScanSelects(sec: Section, rs: seq<RawRecord>)
    requires Scan(sec, rs).fault.None?
    ensures forall i :: 0 <= i < |rs| ==> Classifiable(rs[i])
    ensures RecordsOf(Scan(sec, rs).shown) == Select(sec, rs)
    decreases |rs|
  {
    if rs != [] {
      var init := rs[..|rs| - 1];
      var last := rs[|rs| - 1];
      ScanSelects(sec, init);
      assert forall i :: 0 <= i < |init| ==> init[i] == rs[i];
      ScanFaultFree(sec, rs);
      assert Visit(sec, last).Success?;
      RecordsOfAppend(Scan(sec, init).shown, [Shown(last, MediaView(DEFAULT_BASE))]);
    }
  }

  /** Each record a pass shows carries the object its section's class builds from it. */
  lemma {:induction false} ScanTexts(sec: Section, rs: seq<RawRecord>)
    ensures forall j :: 0 <= j < |Scan(sec, rs).shown| ==>
      Render(sec, Scan(sec, rs).shown[j].record) == Success(Scan(sec, rs).shown[j].view)
    decreases |rs|
  {
    if rs != [] {
      ScanTexts(sec, rs[..|rs| - 1]);
    }
  }

  /** One more iteration of a pass that has not stopped: the record is skipped or shown. */
  lemma ScanExtend(sec: Section, rs: seq<RawRecord>, i: nat)
    requires i < |rs| && Scan(sec, rs[..i]).fault.None? && Visit(sec, rs[i]).Success?
    ensures Visit(sec, rs[i]).value.None? ==> Scan(sec, rs[..i + 1]) == Scan(sec, rs[..i])
    ensures Visit(sec, rs[i]).value.Some? ==>
      Scan(sec, rs[..i + 1]) == Pass(Scan(sec, rs[..i]).shown + [Shown(rs[i], Visit(sec, rs[i]).value.value)], None)
  {
    assert rs[..i + 1][..i] == rs[..i];
  }

  /** A record that raises stops the pass: nothing after it is visited. */
  lemma ScanFails(sec: Section, rs: seq<RawRecord>, i: nat)
    requires i < |rs| && Scan(sec, rs[..i]).fault.None? && Visit(sec, rs[i]).Failure?
    ensures Scan(sec, rs) == Pass(Scan(sec, rs[..i]).shown, Some(Visit(sec, rs[i]).error))
  {
    assert rs[..i + 1][..i] == rs[..i];
    ScanStops(sec, rs, i + 1);
  }

  /** Once a pass has stopped, the records after the failing one make no difference. */
  lemma {:induction false} ScanStops(sec: Section, rs: seq<RawRecord>, k: nat)
    requires k <= |rs| && Scan(sec, rs[..k]).fault.Some?
    ensures Scan(sec, rs) == Scan(sec, rs[..k])
    decreases |rs| - k
  {
    if k < |rs| {
      assert rs[..k + 1][..k] == rs[..k];
      ScanStops(sec, rs, k + 1);
    } else {
      assert rs[..k] == rs;
    }
  }

  // ---------------------------------------------------------------------------
  // Properties of the whole listing

  lemma {:induction false} EntriesAppend(a: seq<Line>, b: seq<Line>)
    ensures Entries(a + b) == Entries(a) + Entries(b)
    decreases |a|
  {
    if a != [] {
      assert (a + b)[0] == a[0];
      assert (a + b)[1..] == a[1..] + b;
      EntriesAppend(a[1..], b);
    } else {
      assert a + b == b;
    }
  }

  lemma {:induction false} EntriesOfEntries(ls: seq<Line>)
    requires forall i :: 0 <= i < |ls| ==> ls[i].Entry?
    ensures Entries(ls) == ls
    decreases |ls|
  {
    if ls != [] {
      EntriesOfEntries(ls[1..]);
    }
  }

  lemma EntriesOfSection(sec: Section, p: Pass, start: nat)
    ensures Entries(SectionReport(sec, p, start).lines) == Number(p.shown, start)
  {
    var notice := if p.fault.None? && |p.shown| == 0 then [NoneFound(sec)] else [];
    EntriesAppend([Heading(sec)] + Number(p.shown, start), notice);
    EntriesAppend([Heading(sec)], Number(p.shown, start));
    EntriesOfEntries(Number(p.shown, start));
    assert Entries(notice) == [];
  }

  lemma NumberAppend(a: seq<Shown>, b: seq<Shown>, start: nat)
    ensures Number(a, start) + Number(b, start + |a|) == Number(a + b, start)
  {
  }

  /** Two reports numbered consecutively give one report numbered consecutively. */
  lemma ThenNumbers(a: Report, b: Report, start: nat)
    requires Entries(a.lines) == Number(a.shown, start)
    requires a.fault.None? ==> Entries(b.lines) == Number(b.shown, start + |a.shown|)
    ensures Entries(Then(a, b).lines) == Number(Then(a, b).shown, start)
  {
    if a.fault.None? {
      EntriesAppend(a.lines, b.lines);
      NumberAppend(a.shown, b.shown, start);
    }
  }

  /** The closing notice is not an entry. */
  lemma CloseNumbers(r: Report)
    ensures Entries(Close(r).lines) == Entries(r.lines) && Close(r).shown == r.shown
  {
    if r.fault.None? && |r.shown| == 0 {
      EntriesAppend(r.lines, [NoResults]);
      assert Entries([NoResults]) == [];
    }
  }

  lemma CombineNumbers(pa: Pass, pb: Pass, pc: Pass)
    ensures Entries(Combine(pa, pb, pc).lines) == Number(Combine(pa, pb, pc).shown, 0)
  {
    var a := SectionReport(Songs, pa, 0);
    var b := SectionReport(Movies, pb, |pa.shown|);
    var c := SectionReport(OtherMedia, pc, |pa.shown| + |pb.shown|);
    EntriesOfSection(Songs, pa, 0);
    EntriesOfSection(Movies, pb, |pa.shown|);
    EntriesOfSection(OtherMedia, pc, |pa.shown| + |pb.shown|);
    ThenNumbers(a, b, 0);
    ThenNumbers(Then(a, b), c, 0);
    CloseNumbers(Then(Then(a, b), c));
  }

  /**
   * The entries printed by get_results are numbered 1, 2, ... consecutively across the three
   * sections, and the k-th entry carries the summary of the k-th record appended.
   */
  lemma ListingNumbers(rs: seq<RawRecord>)
    ensures Entries(ListAll(rs).lines) == Number(ListAll(rs).shown, 0)
    ensures forall k :: 0 <= k < |Entries(ListAll(rs).lines)| ==>
      Entries(ListAll(rs).lines)[k] == Entry(k + 1, ListAll(rs).shown[k].view)
  {
    CombineNumbers(Scan(Songs, rs), Scan(Movies, rs), Scan(OtherMedia, rs));
  }

  /** A listing that runs to the end consists of the three complete passes. */
  lemma CombineComplete(pa: Pass, pb: Pass, pc: Pass)
    requires Combine(pa, pb, pc).fault.None?
    ensures pa.fault.None? && pb.fault.None? && pc.fault.None?
    ensures Combine(pa, pb, pc).shown == pa.shown + pb.shown + pc.shown
  {
  }

  lemma RecordsOfAppend(a: seq<Shown>, b: seq<Shown>)
    ensures RecordsOf(a + b) == RecordsOf(a) + RecordsOf(b)
  {
  }

  /**
   * A listing that runs to the end shows all song-section records in API order, then all
   * movie-section records, then all other ones.
   */
  lemma ListingOrder(rs: seq<RawRecord>)
    requires ListAll(rs).fault.None?
    ensures forall i :: 0 <= i < |rs| ==> Classifiable(rs[i])
    ensures RecordsOf(ListAll(rs).shown) == Select(Songs, rs) + Select(Movies, rs) + Select(OtherMedia, rs)
  {
    ListAllComplete(rs);
    ScansSelect(rs);
  }

  lemma ListAllComplete(rs: seq<RawRecord>)
    requires ListAll(rs).fault.None?
    ensures Scan(Songs, rs).fault.None? && Scan(Movies, rs).fault.None? && Scan(OtherMedia, rs).fault.None?
    ensures ListAll(rs).shown == Scan(Songs, rs).shown + Scan(Movies, rs).shown + Scan(OtherMedia, rs).shown
  {
    CombineComplete(Scan(Songs, rs), Scan(Movies, rs), Scan(OtherMedia, rs));
  }

  lemma ScansSelect(rs: seq<RawRecord>)
    requires Scan(Songs, rs).fault.None? && Scan(Movies, rs).fault.None? && Scan(OtherMedia, rs).fault.None?
    ensures forall i :: 0 <= i < |rs| ==> Classifiable(rs[i])
    ensures RecordsOf(Scan(Songs, rs).shown + Scan(Movies, rs).shown + Scan(OtherMedia, rs).shown)
      == Select(Songs, rs) + Select(Movies, rs) + Select(OtherMedia, rs)
  {
    var pa, pb, pc := Scan(Songs, rs), Scan(Movies, rs), Scan(OtherMedia, rs);
    ScanSelects(Songs, rs);
    ScanSelects(Movies, rs);
    ScanSelects(OtherMedia, rs);
    RecordsOfAppend(pa.shown, pb.shown);
    RecordsOfAppend(pa.shown + pb.shown, pc.shown);
  }

  /**
   * get_results runs to the end exactly when every record passes every section's tests and
   * every record of a section can be turned into that section's view.
   */
  lemma ListingFaultFree(rs: seq<RawRecord>)
    ensures ListAll(rs).fault.None? <==>
      && (forall i :: 0 <= i < |rs| ==> Visit(Songs, rs[i]).Success?)
      && (forall i :: 0 <= i < |rs| ==> Visit(Movies, rs[i]).Success?)
      && (forall i :: 0 <= i < |rs| ==> Visit(OtherMedia, rs[i]).Success?)
  {
    CombineFaultFree(Scan(Songs, rs), Scan(Movies, rs), Scan(OtherMedia, rs));
    ScanFaultFree(Songs, rs);
    ScanFaultFree(Movies, rs);
    ScanFaultFree(OtherMedia, rs);
  }

  lemma CombineFaultFree(pa: Pass, pb: Pass, pc: Pass)
    ensures Combine(pa, pb, pc).fault.None? <==> pa.fault.None? && pb.fault.None? && pc.fault.None?
  {
  }

  /** Entry lines are the only lines of a numbered block. */
  lemma NumberHasOnlyEntries(shown: seq<Shown>, start: nat, l: Line)
    requires !l.Entry?
    ensures l !in Number(shown, start)
  {
  }

  /** The notices a section prints: its own "none" notice when it ran to the end empty, nothing else. */
  lemma SectionNotices(sec: Section, p: Pass, start: nat)
    ensures NoResults !in SectionReport(sec, p, start).lines
    ensures forall s: Section :: NoneFound(s) in SectionReport(sec, p, start).lines <==>
      s == sec && p.fault.None? && |p.shown| == 0
  {
    NumberHasOnlyEntries(p.shown, start, NoResults);
    forall s: Section ensures NoneFound(s) !in Number(p.shown, start) {
      NumberHasOnlyEntries(p.shown, start, NoneFound(s));
    }
  }

  /** The closing "no results" message is printed exactly when a completed listing showed nothing. */
  lemma CombineNoResults(pa: Pass, pb: Pass, pc: Pass)
    requires Combine(pa, pb, pc).fault.None?
    ensures NoResults in Combine(pa, pb, pc).lines <==> |Combine(pa, pb, pc).shown| == 0
  {
    SectionNotices(Songs, pa, 0);
    SectionNotices(Movies, pb, |pa.shown|);
    SectionNotices(OtherMedia, pc, |pa.shown| + |pb.shown|);
  }

  lemma NoResultsIff(rs: seq<RawRecord>)
    requires ListAll(rs).fault.None?
    ensures NoResults in ListAll(rs).lines <==> |ListAll(rs).shown| == 0
  {
    CombineNoResults(Scan(Songs, rs), Scan(Movies, rs), Scan(OtherMedia, rs));
  }

  /** In a completed listing a section's "none" notice is printed exactly when its pass showed nothing. */
  lemma CombineNoneFound(pa: Pass, pb: Pass, pc: Pass, sec: Section)
    requires Combine(pa, pb, pc).fault.None?
    ensures NoneFound(sec) in Combine(pa, pb, pc).lines <==>
      match sec
      case Songs => |pa.shown| == 0
      case Movies => |pb.shown| == 0
      case OtherMedia => |pc.shown| == 0
  {
    SectionNotices(Songs, pa, 0);
    SectionNotices(Movies, pb, |pa.shown|);
    SectionNotices(OtherMedia, pc, |pa.shown| + |pb.shown|);
  }

  /** A section's "none" notice is printed exactly when a completed listing has no record of that section. */
  lemma NoneFoundIff(rs: seq<RawRecord>, sec: Section)
    requires ListAll(rs).fault.None?
    ensures forall i :: 0 <= i < |rs| ==> Classifiable(rs[i])
    ensures NoneFound(sec) in ListAll(rs).lines <==> Select(sec, rs) == []
  {
    CombineFaultFree(Scan(Songs, rs), Scan(Movies, rs), Scan(OtherMedia, rs));
    CombineNoneFound(Scan(Songs, rs), Scan(Movies, rs), Scan(OtherMedia, rs), sec);
    ScanSelects(Songs, rs);
    ScanSelects(sec, rs);
  }
}
