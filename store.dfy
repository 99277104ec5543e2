/**
 * The decision `load_portfolio` makes about the stored file. The file system
 * is reduced to what the decision depends on (whether the file exists and its
 * text), and JSON decoding is an oracle `decode` that yields the decoded
 * holdings or `None` for a decode error.
 */
module Store {
  import opened Wrappers
  import opened Text
  import opened Holdings

  datatype FileState = Absent | Content(text: string)

  /** The holdings list after loading `file` into a list that currently holds `current`. */
  function Recovered(current: seq<Holding>, file: FileState, decode: string -> Option<seq<Holding>>): seq<Holding>
  {
    match file
    case Absent => current
    case Content(text) =>
      var content := Strip(text);
      if content == [] then []
      else
        match decode(content)
        case Some(hs) => hs
        case None => []
  }

  /**
   * The four outcomes of loading: a missing file leaves the list alone; a file
   * of whitespace only, or one that does not decode, resets it to empty
   * (discarding the old content); otherwise the decoded list replaces it.
   */
  lemma RecoveredCases(current: seq<Holding>, file: FileState, decode: string -> Option<seq<Holding>>)
    ensures file.Absent? ==> Recovered(current, file, decode) == current
    ensures file.Content? && AllSpace(file.text) ==> Recovered(current, file, decode) == []
    ensures file.Content? && !AllSpace(file.text) && decode(Strip(file.text)).None? ==>
      Recovered(current, file, decode) == []
    ensures file.Content? && !AllSpace(file.text) && decode(Strip(file.text)).Some? ==>
      Recovered(current, file, decode) == decode(Strip(file.text)).value
  {
    if file.Content? {
      StripEmptyIffBlank(file.text);
    }
  }
}
