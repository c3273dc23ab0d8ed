/**
 * fetch_data (main.cpp): one GET against the fixed API host, reduced to
 * the classification of what came back. Resolving, connecting, writing
 * and reading are I/O: their failure is the `TransportError` case, whose
 * what() text is a parameter. Saving the body is I/O too: its success is
 * the `saveOk` parameter.
 */
module Fetch {
  import opened Text

  /** What socket shutdown reported: nothing, not_connected, or another error (with its what() text). */
  datatype Shutdown = Clean | NotConnected | ShutdownFailed(what: string)

  datatype Exchange =
    | TransportError(what: string)
    | Answered(shutdown: Shutdown, status: nat, body: string)

  const ErrorTag := "ERROR:"
  /** The prefix LoadStations takes for a failed fetch. */
  const FailurePrefix := "Błąd"

  /** The exchange failed in one of the ways fetch_data turns into an exception. */
  predicate Failed(ex: Exchange) {
    match ex
    case TransportError(_) => true
    case Answered(shutdown, status, body) => shutdown.ShutdownFailed? || status != 200 || body == []
  }

  function SaveFailureMessage(filename: string): (r: string)
    ensures !StartsWith(r, ErrorTag) && !StartsWith(r, FailurePrefix)
  {
    var r := "Nie udało się zapisać danych do pliku " + filename;
    assert r[0] == 'N';
    r
  }

  /** The exception text fetch_data's catch clause returns: the tag, then what(). */
  function Tagged(cause: string): (r: string)
    ensures StartsWith(r, ErrorTag) && !StartsWith(r, FailurePrefix)
    ensures AfterFirst(r, ':') == cause
  {
    var r := ErrorTag + cause;
    assert r[..|ErrorTag|] == ErrorTag;
    assert r[0] == 'E';
    assert r[5] == ':' && ':' !in r[..5];
    assert r[6..] == cause;
    r
  }

  /**
   * The string fetch_data returns. The checks run in the source's order:
   * shutdown error, status, empty body, then the optional save.
   */
  function FetchData(ex: Exchange, filename: string, saveToFile: bool, saveOk: bool): (r: string)
    ensures Failed(ex) ==> StartsWith(r, ErrorTag) && !StartsWith(r, FailurePrefix)
    ensures !Failed(ex) && saveToFile && !saveOk ==> r == SaveFailureMessage(filename) && !StartsWith(r, ErrorTag)
    ensures !Failed(ex) && !(saveToFile && !saveOk) ==> r == ex.body
    ensures ex.TransportError? ==> r == Tagged(ex.what)
    ensures ex.Answered? && ex.shutdown.ShutdownFailed? ==> r == Tagged(ex.shutdown.what)
    ensures ex.Answered? && !ex.shutdown.ShutdownFailed? && ex.status != 200 ==> r == Tagged("HTTP " + DecimalString(ex.status))
    ensures ex.Answered? && !ex.shutdown.ShutdownFailed? && ex.status == 200 && ex.body == [] ==> r == Tagged("Pusta odpowiedź")
  {
    match ex
    case TransportError(what) => Tagged(what)
    case Answered(shutdown, status, body) =>
      if shutdown.ShutdownFailed? then Tagged(shutdown.what)
      else if status != 200 then Tagged("HTTP " + DecimalString(status))
      else if body == [] then Tagged("Pusta odpowiedź")
      else if saveToFile && !saveOk then SaveFailureMessage(filename)
      else body
  }

  /** A not_connected shutdown is treated exactly like a clean one. */
  lemma NotConnectedIsClean(status: nat, body: string, filename: string, saveToFile: bool, saveOk: bool)
    ensures FetchData(Answered(NotConnected, status, body), filename, saveToFile, saveOk)
         == FetchData(Answered(Clean, status, body), filename, saveToFile, saveOk)
  {
  }

  /**
   * The sentinel conflates the channels: whatever failure an exchange
   * meets, a successful exchange whose body happens to be that failure's
   * text yields the same string (for instance a 200 body "ERROR:HTTP 500"
   * and a genuine 500 reply).
   */
  lemma SentinelIsAmbiguous(ex: Exchange, filename: string, saveToFile: bool, saveOk: bool)
    requires Failed(ex)
    requires saveOk || !saveToFile
    ensures var forged := Answered(Clean, 200, FetchData(ex, filename, saveToFile, saveOk));
            !Failed(forged) && FetchData(forged, filename, saveToFile, saveOk) == FetchData(ex, filename, saveToFile, saveOk)
  {
    var r := FetchData(ex, filename, saveToFile, saveOk);
    assert r[..|ErrorTag|] == ErrorTag;
  }
}
