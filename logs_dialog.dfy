/** The debug-log dialog's buffer: a newest-first list of at most 100 log
    entries, each with an id from a running counter, plus the collapsed or
    expanded text shown for each row. */
module Logs {

  const MaxLogs: nat := 100
  const CollapsedWidth: nat := 80
  const Ellipsis: string := "..."

  datatype LogEntry = LogEntry(id: nat, message: string, expanded: bool)

  function Min(a: nat, b: nat): nat {
    if a <= b then a else b
  }

  /** `[newLog, ...logs.slice(0, 99)]`: the new entry first, then the newest
      99 of the earlier ones, in their order. */
  function Pushed(logs: seq<LogEntry>, entry: LogEntry): (r: seq<LogEntry>)
    ensures |r| == Min(|logs| + 1, MaxLogs)
    ensures r[0] == entry
    ensures r[1..] <= logs
  {
    [entry] + logs[..Min(|logs|, MaxLogs - 1)]
  }

  /** The buffer's invariant: at most 100 entries, ids strictly decreasing
      from the front (newest first), all below the next id to hand out. */
  ghost predicate NewestFirst(logs: seq<LogEntry>, next: nat) {
    |logs| <= MaxLogs &&
    (forall i :: 0 <= i < |logs| ==> logs[i].id < next) &&
    (forall i, j :: 0 <= i < j < |logs| ==> logs[i].id > logs[j].id)
  }

  /** Adding an entry with the next id keeps the buffer newest first. */
  lemma PushedNewestFirst(logs: seq<LogEntry>, next: nat, message: string)
    requires NewestFirst(logs, next)
    ensures NewestFirst(Pushed(logs, LogEntry(next, message, false)), next + 1)
  {
    var r := Pushed(logs, LogEntry(next, message, false));
    forall i, j | 0 <= i < j < |r| ensures r[i].id > r[j].id {
      assert r[j] == logs[j - 1];
      if i > 0 {
        assert r[i] == logs[i - 1];
      }
    }
  }

  /** Adding an entry evicts at most one entry: the oldest of a full buffer. */
  lemma PushedDropsOnlyTheOldest(logs: seq<LogEntry>, next: nat, message: string, e: LogEntry)
    requires NewestFirst(logs, next)
    requires e in logs && e !in Pushed(logs, LogEntry(next, message, false))
    ensures |logs| == MaxLogs && e == logs[MaxLogs - 1]
  {
    var r := Pushed(logs, LogEntry(next, message, false));
    var i :| 0 <= i < |logs| && logs[i] == e;
    assert forall k :: 0 <= k < |r| - 1 ==> r[k + 1] == logs[k];
    assert i >= |r| - 1;
  }

  /** The text a row shows: the whole message when expanded, otherwise at
      most its first 80 characters, with "..." when cut. */
  function DisplayMessage(e: LogEntry): (r: string)
    ensures e.expanded || |e.message| <= CollapsedWidth ==> r == e.message
    ensures !e.expanded && |e.message| > CollapsedWidth ==>
      |r| == CollapsedWidth + |Ellipsis| && r[..CollapsedWidth] == e.message[..CollapsedWidth] && r[CollapsedWidth..] == Ellipsis
  {
    if e.expanded then e.message
    else if |e.message| > CollapsedWidth then e.message[..CollapsedWidth] + Ellipsis
    else e.message
  }

  /** A collapsed row is never wider than 83 characters and always starts
      like its message. */
  lemma CollapsedRowBounded(e: LogEntry)
    requires !e.expanded
    ensures |DisplayMessage(e)| <= CollapsedWidth + |Ellipsis|
    ensures DisplayMessage(e)[..Min(|e.message|, CollapsedWidth)] == e.message[..Min(|e.message|, CollapsedWidth)]
  {
  }

  /** The rows `show` lists, one per entry in buffer order, or the
      placeholder when there are none. */
  function Rows(logs: seq<LogEntry>): (rows: seq<string>)
    ensures logs == [] ==> rows == ["No logs yet..."]
    ensures logs != [] ==> |rows| == |logs| && forall i :: 0 <= i < |logs| ==> rows[i] == DisplayMessage(logs[i])
  {
    if logs == [] then ["No logs yet..."]
    else seq(|logs|, i requires 0 <= i < |logs| => DisplayMessage(logs[i]))
  }

  /** The entries after a click on the row of entry `id`: that entry's
      `expanded` flag flips; an entry that has left the buffer changes nothing. */
  function Toggled(logs: seq<LogEntry>, id: nat): (r: seq<LogEntry>)
    ensures |r| == |logs|
    ensures forall i :: 0 <= i < |logs| ==>
      r[i] == if logs[i].id == id then logs[i].(expanded := !logs[i].expanded) else logs[i]
  {
    seq(|logs|, i requires 0 <= i < |logs| =>
      if logs[i].id == id then logs[i].(expanded := !logs[i].expanded) else logs[i])
  }

  /** Clicking the same row twice restores it. */
  lemma ToggledTwice(logs: seq<LogEntry>, id: nat)
    ensures Toggled(Toggled(logs, id), id) == logs
  {
  }

  /** The `logs` and `idCounter` state of the dialog. */
  class LogsDialog {
    var logs: seq<LogEntry>
    var idCounter: nat

    ghost predicate Valid()
      reads this
    {
      NewestFirst(logs, idCounter)
    }

    constructor()
      ensures Valid() && logs == [] && idCounter == 0
    {
      logs := [];
      idCounter := 0;
    }

    /** `addLog`: the entry gets the counter's value as id (the counter then
        moves on) and starts collapsed; it goes first, and the buffer keeps
        at most 100 entries. */
    method AddLog(message: string)
      requires Valid()
      modifies this
      ensures Valid()
      ensures idCounter == old(idCounter) + 1
      ensures logs == Pushed(old(logs), LogEntry(old(idCounter), message, false))
    {
      PushedNewestFirst(logs, idCounter, message);
      logs := Pushed(logs, LogEntry(idCounter, message, false));
      idCounter := idCounter + 1;
    }

    /** The row click handler: flips the clicked entry's `expanded` flag. */
    method ToggleExpanded(id: nat)
      requires Valid()
      modifies this
      ensures Valid() && idCounter == old(idCounter)
      ensures logs == Toggled(old(logs), id)
    {
      logs := Toggled(logs, id);
    }

    /** `clear`: empties the buffer and restarts the ids at 0. */
    method Clear()
      modifies this
      ensures Valid() && logs == [] && idCounter == 0
    {
      logs := [];
      idCounter := 0;
    }
  }
}
