/** Log entries, snapshot boundaries and the absolute-index view of a Raft history. */
module Entries {

  datatype Option<+T> = None | Some(value: T)

  const NO_VOTE := -1

  datatype Role = Follower | Candidate | Leader

  // Operation names as they appear in a durable record; any other string is unknown.
  const NOOP := ""
  const SET := "SET"
  const DELETE := "DELETE"

  datatype LogEntry = LogEntry(index: nat, term: nat, op: string, key: string, value: string)

  type Log = seq<LogEntry>

  /** Last compacted index and its term; (0, 0) is the implicit empty entry. */
  datatype Boundary = Boundary(index: nat, term: nat)

  predicate ValidEntry(e: LogEntry) {
    && e.index != 0
    && (if e.op == NOOP then e.key == "" && e.value == ""
        else if e.op == SET then e.key != ""
        else e.op == DELETE && e.key != "" && e.value == "")
  }

  /** Valid, and short enough for a state machine that bounds its values. */
  predicate Fits(e: LogEntry, limit: nat) {
    ValidEntry(e) && |e.value| <= limit
  }

  predicate AllFit(log: Log, limit: nat) {
    forall i :: 0 <= i < |log| ==> Fits(log[i], limit)
  }

  /** A full history: entry i carries absolute index i + 1. */
  predicate Indexed(h: Log) {
    forall i :: 0 <= i < |h| ==> h[i].index == i + 1
  }

  function TermIn(h: Log, index: nat): nat
    requires index <= |h|
  {
    if index == 0 then 0 else h[index - 1].term
  }

  function LastTerm(h: Log): nat {
    TermIn(h, |h|)
  }

  /** The election rule on (index, term) pairs: later term wins, then longer log. */
  predicate AtLeastAsRecent(candIndex: nat, candTerm: nat, index: nat, term: nat) {
    if candTerm != term then candTerm > term else candIndex >= index
  }

  function Min(a: nat, b: nat): nat { if a <= b then a else b }

  function Max(a: nat, b: nat): nat { if a <= b then b else a }

  lemma PrefixesNest(a: Log, b: Log, c: Log)
    requires a <= c && b <= c && |a| <= |b|
    ensures a <= b
  {
    assert a == c[..|a|] && b == c[..|b|];
  }
}
