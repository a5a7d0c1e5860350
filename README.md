# iTunes search console, modelled in Dafny

This project models the command-line iTunes search program `proj1_w21_skenkre.py`. The program
asks for a search term and for how many results to preview. It then lists the results in three
sections: SONGS, MOVIES and OTHER MEDIA. Entries are numbered consecutively across all three
sections, and each listed record is appended to a global `media_list`. The user can then enter a
number to open that entry's URL in a browser, enter a new search term, or enter `exit`.

The modules follow the program's structure:

- `Wrappers`: `Option` and `Result`.
- `Strings`: Python's `str()` of an integer, the `int()` parse (as an `Option`), and the
  substring test `x in s`.
- `Records`: the `Media`, `Song` and `Movie` classes.
  - A raw iTunes record is a `map<string, Value>`.
  - A constructed object is a `View`, one variant per class.
  - A constructor that raises (`KeyError`, `TypeError`, `ValueError`) returns a `Failure` carrying
    the offending key.
  - `info()` and `length()` are functions on a `View`.
- `Console`: the lines the program prints, as `Line` values.
  - `Text` gives the exact string each line passes to `print()`.
  - An entry line keeps the object it describes, and its text is the entry number, a space and
    that object's `info()`.
- `Listing`: the three classification passes of `get_results`, as functions.
  - `Scan` is one pass.
  - It stops at the first exception, and that exception ends the program.
  - `ListAll` is the whole listing.
- `Session`: the count prompt of `get_results` and the `__main__` loop, as a reference
  state machine (`StepSpec`, `RunSpec`), together with a class `Session`.
  - The class's fields are the ones the loop updates.
  - `ReadCount` and `ShowEntries` are loops, as in the source.
  - Each method is proved equal to the reference functions.

The HTTP request is a parameter. `Catalog` maps the term and the count to the result sequence the
API would return. Console input is a sequence of lines. When the input runs out, `input()` raises
`EOFError`, which the model records as the session halting. The browser call is modelled by
recording the URL in `launched`.

Where the code differs from what a reader might expect, the model follows the code:

- A release date shorter than four characters is not an error. `[:4]` keeps the whole string.
- Classification is not first-match. A track whose `kind` contains both `song` and `feature-movie`
  is listed under SONGS and again under MOVIES.
- A malformed record is not skipped. The exception it raises ends the program, even when the
  search runs from inside the `except` branch of the selection.
- `media_list[num-1]` follows Python's indexing, so `0` selects the last entry and `-1` the one
  before it.
- `"Launching"` is printed before the index is resolved. A failed selection therefore prints it
  before resetting the list and searching.
- The comment at line 212 says a movie's length is rounded to the nearest minute, but
  `int(x / 60000)` truncates toward zero. `Records.Length` and `Records.TruncDiv` follow the
  truncation, so 5399999 ms is 89 minutes.

## Model

| member | source | states |
|---|---|---|
| Strings.NatToString | proj1_w21_skenkre.py:272 | `str(n)` of a natural number is never empty |
| Strings.NatToStringDigits | proj1_w21_skenkre.py:272 | `str(n)` is all decimal digits, with no leading zero unless it is "0" |
| Strings.DigitsValueOfNatToString | proj1_w21_skenkre.py:272 | reading the digits of `str(n)` back gives `n` |
| Strings.ParseInt | proj1_w21_skenkre.py:256 | `int(s)` succeeds only on a non-empty string starting with a digit or a sign |
| Strings.ParseIntOfIntToString | proj1_w21_skenkre.py:331 | `int(str(n)) == n` for every integer, negative ones included |
| Strings.ContainsSpec | proj1_w21_skenkre.py:269 | `sub in s` holds exactly when `sub` occurs in `s` at some position |
| Records.BaseOfSpec | proj1_w21_skenkre.py:44-54 | reading a record succeeds iff a title (trackName, else collectionName), artistName, a string releaseDate and a URL (trackViewUrl, else collectionViewUrl) exist; title and URL fall back to the collection fields; the year is the first min(4, len) characters of the date; a failure names a missing or mistyped key |
| Records.NewMediaSpec | proj1_w21_skenkre.py:30-59 | without a record the arguments are kept; with one the fields are read from it, and construction fails exactly when reading fails |
| Records.NewSongSpec | proj1_w21_skenkre.py:113-122 | Song(json=r) succeeds iff the Media fields, collectionName, an integer trackTimeMillis and primaryGenreName can be read; album, genre and length come from those keys; a failure blames a key of r |
| Records.NewMovieSpec | proj1_w21_skenkre.py:175-182 | Movie(json=r) succeeds iff the Media fields, contentAdvisoryRating and an integer trackTimeMillis can be read; a failure blames a key of r |
| Records.DefaultsWithoutRecord | proj1_w21_skenkre.py:30 | with no record every class keeps its default arguments ("No Title", "No Album", "No Rating", length 0, and so on) |
| Records.InfoExtendsMediaInfo | proj1_w21_skenkre.py:73-197 | for every object, Media's info() is "title by author (year)"; a Song's is Media's followed by " [genre]" and a Movie's by " [rating]", as `super().info() + ...` builds them |
| Records.InfoExample | proj1_w21_skenkre.py:137 | one concrete song ("Yesterday" by The Beatles, 1965, genre Rock) prints "Yesterday by The Beatles (1965) [Rock]" |
| Records.TruncDiv | proj1_w21_skenkre.py:152 | `int(a / d)` truncates toward zero: the quotient's magnitude is the floor of `abs(a) / d`, with the sign of `a` |
| Records.LengthUnits | proj1_w21_skenkre.py:212 | Media length is 0; for non-negative milliseconds a song's length is whole seconds and a movie's whole minutes |
| Records.LengthExamples | proj1_w21_skenkre.py:212 | 245000 ms gives 245 s and 4 min, 5400000 ms gives 90 min, 5399999 ms gives 89 min (not rounded), and -1500 ms gives -1 s (truncation, not floor) |
| Console.EntryNumberReadable | proj1_w21_skenkre.py:272 | an entry line starts with its number and a space, and that number parses back |
| Listing.Member | proj1_w21_skenkre.py:267-303 | a pass's tests succeed exactly when wrapperType exists and a track's kind is a string; otherwise the error names that key |
| Listing.BucketRules | proj1_w21_skenkre.py:267-303 | SONGS iff a track whose kind contains "song"; MOVIES iff a track whose kind contains "feature-movie"; OTHER iff neither; every record lands somewhere and OTHER is disjoint from the others |
| Listing.SongAndMovieOverlap | proj1_w21_skenkre.py:267-285 | a track of kind "song/feature-movie" is listed under both SONGS and MOVIES |
| Listing.ScanFaultFree | proj1_w21_skenkre.py:267-273 | a pass runs to the end iff no record raises when it is tested or constructed |
| Listing.ScanSelects | proj1_w21_skenkre.py:267-273 | a pass that runs to the end shows exactly the section's records, in API order |
| Listing.ScanTexts | proj1_w21_skenkre.py:272 | each shown record is printed through the object its section's class builds from it |
| Listing.ScanStops | proj1_w21_skenkre.py:267-273 | once a record raises, the records after it change nothing |
| Listing.CombineNumbers | proj1_w21_skenkre.py:252-303 | three sections numbered on from each other's counts print entries 1..n in the order the records are shown |
| Listing.ListingNumbers | proj1_w21_skenkre.py:252-303 | the k-th entry printed by get_results carries number k and the k-th shown record |
| Listing.CombineComplete | proj1_w21_skenkre.py:264-303 | a listing that runs to the end shows the songs, then the movies, then the other media |
| Listing.ListAllComplete | proj1_w21_skenkre.py:264-303 | a listing that runs to the end ran all three passes to the end and appended their records in section order |
| Listing.ListingOrder | proj1_w21_skenkre.py:264-303 | a complete listing appends all song-bucket records in API order, then movie-bucket, then other-bucket records |
| Listing.CombineFaultFree | proj1_w21_skenkre.py:264-309 | a listing runs to the end iff all three passes do |
| Listing.ListingFaultFree | proj1_w21_skenkre.py:264-309 | get_results raises nothing iff no record raises in any of the three passes |
| Listing.SectionNotices | proj1_w21_skenkre.py:274-306 | a section prints its own "none" notice iff it ran to the end and showed nothing, and never the "no results" notice |
| Listing.CombineNoResults | proj1_w21_skenkre.py:308-309 | "There are no results" is printed iff nothing was shown |
| Listing.NoResultsIff | proj1_w21_skenkre.py:308-309 | for a complete listing, the "no results" notice is printed iff num_media is 0 |
| Listing.CombineNoneFound | proj1_w21_skenkre.py:274-306 | each section's "none" notice is printed iff that section showed nothing |
| Listing.NoneFoundIff | proj1_w21_skenkre.py:274-306 | for a complete listing, a section's "none" notice is printed iff no record of the results is in that section |
| Session.CountPrompt | proj1_w21_skenkre.py:253-263 | the prompt never reads more answers than there are |
| Session.CountPromptSpec | proj1_w21_skenkre.py:253-263 | the prompt accepts only an integer in [1, 50], the first such answer; every earlier answer is refused with "valid number greater than 0" (not an integer) or "between 1 and 50" (out of range) |
| Session.CountExamples | proj1_w21_skenkre.py:253-263 | 0, 51 and "abc" are refused with the right messages and 7 is then accepted |
| Session.PyIndex | proj1_w21_skenkre.py:333 | Python list indexing: defined iff -len <= i < len, negative indices counting from the end |
| Session.StepSpec | proj1_w21_skenkre.py:317-343 | every iteration reads one line, or halts on end of input, and a loop that goes on has consumed input |
| Session.RunSpec | proj1_w21_skenkre.py:317-343 | the loop always stops: by "exit", at end of input, or on an exception |
| Session.ExitTerminates | proj1_w21_skenkre.py:318-329 | "exit" prints "Bye!" and ends the loop in either mode, leaving the list as it was |
| Session.ExitIsNotANumber | proj1_w21_skenkre.py:331 | `int("exit")` raises ValueError; a helper for the selection lemmas (the `info == 'exit'` test at line 327 runs first anyway) |
| Session.SelectionResolves | proj1_w21_skenkre.py:330-340 | a number 1..len whose entry has a URL keeps the list, prints Launching, the URL and "in web browser...", and opens trackViewUrl if present, else collectionViewUrl |
| Session.ZeroSelectsLast | proj1_w21_skenkre.py:333 | selecting 0 opens the URL of the last entry |
| Session.SelectionFails | proj1_w21_skenkre.py:333-343 | a selection fails iff the index is outside Python's range or the entry has neither URL key |
| Session.NotANumberSearches | proj1_w21_skenkre.py:330-343 | with a non-empty list, an answer that is not a number empties the list and runs a search for it |
| Session.UnresolvedSearches | proj1_w21_skenkre.py:330-343 | a number that selects nothing prints "Launching", empties the list and runs a search for it |
| Session.SearchNumbersPositions | proj1_w21_skenkre.py:318-324 | after a search from an empty list, printed entry k is the k-th record of the new list |
| Session.SearchEntryTexts | proj1_w21_skenkre.py:270-273 | after a search from an empty list, the k-th printed entry reads `str(k) + " " + info()` of the k-th record of the new list, and its leading number parses back to k |
| Session.EmptySearchAwaitsTerm | proj1_w21_skenkre.py:318-324 | a search from term entry that raises nothing goes back to term entry iff it printed "no results", and otherwise asks for a selection |
| Session.Session.constructor | proj1_w21_skenkre.py:315 | the session starts with an empty list, nothing printed and the loop running |
| Session.Session.ReadLine | proj1_w21_skenkre.py:319 | input() takes the next line, or reports end of input |
| Session.Session.ReadCount | proj1_w21_skenkre.py:253-263 | the prompt loop returns the count CountPrompt accepts, consumes the answers it reads and prints its messages |
| Session.Session.ShowRecord | proj1_w21_skenkre.py:268-273 | one iteration of a pass: tests the record, and when it is shown prints the next entry and appends it |
| Session.Session.ShowStep | proj1_w21_skenkre.py:267-273 | one iteration extends the pass so far by that record: ended by its exception, unchanged, or one entry longer |
| Session.Session.ShowEntries | proj1_w21_skenkre.py:267-273 | the `for` loop of one pass prints the pass's entries numbered on from num_media and appends exactly its shown records |
| Session.Session.ShowSection | proj1_w21_skenkre.py:265-275 | one section prints its heading, entries and "none" notice, and advances num_media by its count |
| Session.Session.ShowLeading | proj1_w21_skenkre.py:265-287 | the SONGS then MOVIES sections, the second numbered on from the first |
| Session.Session.ShowAll | proj1_w21_skenkre.py:265-309 | the three passes and the closing notice print and append exactly what ListAll says |
| Session.Session.GetResults | proj1_w21_skenkre.py:252-309 | get_results changes the session as Search says: prompt, fetch, listing, and halting on an exception |
| Session.Session.Step | proj1_w21_skenkre.py:317-343 | one iteration of the main loop changes the session as StepSpec says |
| Session.Session.Run | proj1_w21_skenkre.py:317-343 | the main loop runs to the state RunSpec gives, which has stopped |

## Left out

- `get_data` (the HTTP request and `json.loads`) is not part of this model. The result sequence
  it would return is the `Catalog` parameter. A response without a `results` key is not modelled.
- `webbrowser.open` is a call out of the program. The model only records the URL it is handed.
  An exception raised by the browser call, which the `except` branch would catch, is not modelled.
- The prompts shown by `input()` are not part of the output log. Only what `print()` prints is.
- `print()` of a URL or of a field uses `str()` of a string or an integer. JSON values of other
  kinds are not modelled: nulls, floats, booleans, lists and objects.
- Strings.ParseInt: does not model the surrounding whitespace, the `_` separators or the non-ASCII
  decimal digits (such as "３" or "٣") that Python's `int()` accepts.
- Records.TruncDiv: does not model the rounding of the floating-point division in `int(x / 1000)`
  for values beyond 2^53. The model divides exactly, then truncates toward zero.
- The bare `except:` catches any exception. In the model, the only exceptions it catches are the
  ones the selection can raise: an answer that is not a number, a bad index, or a missing
  `collectionViewUrl`.
- Interrupts (`KeyboardInterrupt`) are not modelled.
