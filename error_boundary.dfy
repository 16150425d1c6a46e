/**
 * The error boundary of src/components/ErrorBoundary.jsx and its diagnostic
 * log, kept in session storage under "tallygo_logs" as a JSON array, newest
 * entry first, at most 50 entries.
 *
 * Session storage and JSON are abstracted: reading the item yields a
 * `StoredItem`, and writing `JSON.stringify(a)` stores `LogArray(a)`, which
 * is what a later read parses back.
 */
module ErrorBoundary {
  import opened Options

  /** The number of entries `logs.slice(0, 50)` keeps in storage. */
  const StoredLogLimit: nat := 50
  const BoundaryPrefix := "ERROR BOUNDARY TRIGGERED: "

  /** Text colours of the debug panel. */
  const ErrorRed := "#ff6b6b"
  const SuccessGreen := "#0be881"
  const PlainWhite := "#fff"

  /** One diagnostic entry; `kind` is the JSON field `type`. */
  datatype LogEntry = LogEntry(id: int, message: string, kind: string, timestamp: string)

  /** What reading and parsing the stored item gives. */
  datatype StoredItem =
    | Missing                              // no item, or the empty string
    | Unreadable                           // `getItem` or `JSON.parse` threw
    | LogArray(entries: seq<LogEntry>)     // the item parsed to an array
    | OtherJson                            // it parsed to a non-array value (an object, a number, null, ...)

  /** The value the component holds in `logs` and puts into `errorLogs`. */
  datatype Logs = Entries(entries: seq<LogEntry>) | NotAList

  /** The guarded read: a missing or unparseable item degrades to the empty
      list and never raises; a stored array is taken as it is. */
  function LoadLogs(item: StoredItem): (logs: Logs)
    ensures logs.NotAList? <==> item.OtherJson?
    ensures logs.Entries? ==> logs.entries == (if item.LogArray? then item.entries else [])
  {
    match item
    case LogArray(es) => Entries(es)
    case OtherJson => NotAList
    case _ => Entries([])
  }

  /** `logs.slice(0, 50)`: the first entries, at most the limit. */
  function Capped(logs: seq<LogEntry>): (r: seq<LogEntry>)
    ensures |r| == if |logs| < StoredLogLimit then |logs| else StoredLogLimit
    ensures r == logs[..|r|]
  {
    if |logs| <= StoredLogLimit then logs else logs[..StoredLogLimit]
  }

  /** What is stored after a caught error: the new entry first, then the
      prior entries in their order, cut so that at most 50 remain; when
      fewer than 50 were stored, none is dropped. */
  function StoredAfterCatch(entry: LogEntry, logs: seq<LogEntry>): (r: seq<LogEntry>)
    ensures 1 <= |r| <= StoredLogLimit && r[0] == entry
    ensures |r| == if |logs| < StoredLogLimit then |logs| + 1 else StoredLogLimit
    ensures r[1..] == logs[..|r| - 1]
    ensures |logs| < StoredLogLimit ==> r == [entry] + logs
  {
    var r := Capped([entry] + logs);
    assert r[1..] == logs[..|r| - 1] by {
      forall i | 0 <= i < |r| - 1 ensures r[1..][i] == logs[i] {
        assert r[1..][i] == r[i + 1] == ([entry] + logs)[i + 1];
      }
    }
    r
  }

  /** The stored log after a run of caught errors, oldest catch first, every
      write succeeding. */
  function AfterCatches(logs: seq<LogEntry>, caught: seq<LogEntry>): seq<LogEntry>
    decreases |caught|
  {
    if caught == [] then logs else AfterCatches(StoredAfterCatch(caught[0], logs), caught[1..])
  }

  function Reversed(s: seq<LogEntry>): (r: seq<LogEntry>)
    ensures |r| == |s|
    ensures forall i :: 0 <= i < |s| ==> r[i] == s[|s| - 1 - i]
  {
    if s == [] then [] else Reversed(s[1..]) + [s[0]]
  }

  /** Cutting the tail first changes nothing: only the first 50 entries of
      the whole sequence survive either way. */
  lemma CappedAbsorbs(front: seq<LogEntry>, back: seq<LogEntry>)
    ensures Capped(front + Capped(back)) == Capped(front + back)
  {
  }

  /** The stored log always holds the most recent entries, newest first:
      after any run of catches it is the caught entries in reverse order
      followed by what was stored before, cut to 50. */
  lemma {:induction false} CatchesKeepMostRecent(logs: seq<LogEntry>, caught: seq<LogEntry>)
    requires caught != [] || |logs| <= StoredLogLimit
    ensures AfterCatches(logs, caught) == Capped(Reversed(caught) + logs)
    decreases |caught|
  {
    if caught == [] {
      assert Reversed(caught) + logs == logs;
    } else {
      var e, rest := caught[0], caught[1..];
      var once := StoredAfterCatch(e, logs);
      CatchesKeepMostRecent(once, rest);
      CappedAbsorbs(Reversed(rest), [e] + logs);
      assert Reversed(caught) == Reversed(rest) + [e];
      assert Reversed(rest) + ([e] + logs) == Reversed(caught) + logs;
    }
  }

  /** After 50 or more catches the stored log is exactly the 50 newest
      entries, newest first. */
  lemma FullLogHoldsNewest(logs: seq<LogEntry>, caught: seq<LogEntry>)
    requires |caught| >= StoredLogLimit
    ensures var r := AfterCatches(logs, caught);
      |r| == StoredLogLimit &&
      forall i :: 0 <= i < StoredLogLimit ==> r[i] == caught[|caught| - 1 - i]
  {
    CatchesKeepMostRecent(logs, caught);
    var all := Reversed(caught) + logs;
    forall i | 0 <= i < StoredLogLimit ensures Capped(all)[i] == caught[|caught| - 1 - i] {
      assert Capped(all)[i] == all[i] == Reversed(caught)[i];
    }
  }

  /** The colour an entry is shown in: red for errors, green for successes,
      white for any other type. */
  function EntryColour(kind: string): (colour: string)
    ensures colour == ErrorRed <==> kind == "error"
    ensures colour == SuccessGreen <==> kind == "success"
    ensures colour == PlainWhite <==> kind != "error" && kind != "success"
  {
    if kind == "error" then ErrorRed
    else if kind == "success" then SuccessGreen
    else PlainWhite
  }

  /** The partial state `getDerivedStateFromError` returns. */
  datatype DerivedState = DerivedState(hasError: bool, errorLogs: Logs)

  /** The static `getDerivedStateFromError`: whatever the error, the
      boundary switches to its error view with the stored log as loaded. */
  function GetDerivedStateFromError(item: StoredItem): (u: DerivedState)
    ensures u.hasError
    ensures u.errorLogs.NotAList? <==> item.OtherJson?
    ensures u.errorLogs.Entries? ==> u.errorLogs.entries == (if item.LogArray? then item.entries else [])
  {
    DerivedState(true, LoadLogs(item))
  }

  /** The stored log respects the limit (a read that is not an array has no
      length to bound). */
  predicate WithinLimit(item: StoredItem)
  {
    item.LogArray? ==> |item.entries| <= StoredLogLimit
  }

  /** The session-storage item "tallygo_logs". */
  class SessionLogStore {
    var item: StoredItem

    constructor (item: StoredItem)
      ensures this.item == item
    {
      this.item := item;
    }
  }

  /** The boundary's state fields. */
  class Boundary {
    var hasError: bool
    /** `errorInfo.componentStack` */
    var errorInfo: Option<string>
    var errorMessage: Option<string>
    var errorLogs: Logs

    constructor ()
      ensures !hasError && errorInfo == None && errorMessage == None && errorLogs == Entries([])
    {
      hasError, errorInfo, errorMessage, errorLogs := false, None, None, Entries([]);
    }

    /** A descendant threw while rendering: React merges the result of
        `getDerivedStateFromError` into the state. */
    method MergeDerivedState(store: SessionLogStore)
      modifies this
      ensures hasError == GetDerivedStateFromError(store.item).hasError
      ensures errorLogs == GetDerivedStateFromError(store.item).errorLogs
      ensures errorInfo == old(errorInfo) && errorMessage == old(errorMessage)
    {
      var u := GetDerivedStateFromError(store.item);
      hasError, errorLogs := u.hasError, u.errorLogs;
    }

    /** `componentDidCatch`: reloads the stored log, puts it into the state
        together with the error, then prepends the new entry to that same
        array (so the state's list gains the entry and is not cut) and
        stores the first 50 entries. When the loaded value is not an array,
        the prepend throws and is caught, and storage keeps its old item;
        when storage refuses the write (`storageAccepts` false), it keeps its
        old item as well. `nowMillis` and `localTime` stand for `Date.now()`
        and `toLocaleTimeString()`. */
    method ComponentDidCatch(errorText: string, componentStack: string, store: SessionLogStore,
                             nowMillis: int, localTime: string, storageAccepts: bool)
      modifies this, store
      ensures hasError == old(hasError)
      ensures WithinLimit(old(store.item)) ==> WithinLimit(store.item)
      ensures errorInfo == Some(componentStack) && errorMessage == Some(errorText)
      ensures var entry := LogEntry(nowMillis, BoundaryPrefix + errorText, "error", localTime);
        match LoadLogs(old(store.item))
        case Entries(prior) =>
          && errorLogs == Entries([entry] + prior)
          && store.item == (if storageAccepts then LogArray(StoredAfterCatch(entry, prior)) else old(store.item))
        case NotAList =>
          errorLogs == NotAList && store.item == old(store.item)
    {
      var logs := LoadLogs(store.item);
      errorInfo, errorLogs, errorMessage := Some(componentStack), logs, Some(errorText);
      var entry := LogEntry(nowMillis, BoundaryPrefix + errorText, "error", localTime);
      match logs {
        case Entries(prior) =>
          // `logs.unshift(newLog)` mutates the array the state refers to
          errorLogs := Entries([entry] + prior);
          if storageAccepts {
            store.item := LogArray(Capped([entry] + prior));
          }
        case NotAList =>
      }
    }
  }
}
