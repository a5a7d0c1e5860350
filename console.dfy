/** The lines the program prints, and their exact text (the argument passed to print()). */
module Console {
  import opened Wrappers
  import opened Strings
  import opened Records

  datatype Section = Songs | Movies | OtherMedia

  /** A printed line; an entry line keeps the object whose info() it prints. */
  datatype Line =
    | Heading(section: Section)
    | Entry(number: nat, item: View)
    | NoneFound(section: Section)
    | NoResults
    | NotANumber
    | OutOfRange
    | Bye
    | Launching
    | UrlLine(url: Value)
    | InBrowser

  function Text(l: Line): string {
    match l
    case Heading(Songs) => "\nSONGS"
    case Heading(Movies) => "\nMOVIES"
    case Heading(OtherMedia) => "\nOTHER MEDIA"
    case Entry(n, v) => NatToString(n) + " " + Info(v)
    case NoneFound(Songs) => "There are no songs that match your search."
    case NoneFound(Movies) => "There are no movies that match your search."
    case NoneFound(OtherMedia) => "There is no other media that matches your search.\n"
    case NoResults => "There are no results for your search."
    case NotANumber => "Please enter a valid number greater than 0."
    case OutOfRange => "Please enter a valid number between 1 and 50, inclusive."
    case Bye => "Bye!"
    case Launching => "Launching"
    case UrlLine(u) => Show(u)
    case InBrowser => "in web browser..."
  }

  /** An entry line's text begins with its number and a space, so the number can be read back. */
  lemma EntryNumberReadable(n: nat, v: View)
    ensures var s := Text(Entry(n, v));
      |NatToString(n)| < |s| && s[..|NatToString(n)|] == NatToString(n) && s[|NatToString(n)|] == ' '
      && ParseInt(s[..|NatToString(n)|]) == Some(n)
  {
    ParseIntOfIntToString(n);
  }
}
