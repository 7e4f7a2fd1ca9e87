/** What survives a crash: the stable state, the log and the snapshot, each
    changed by whole writes. A batch append is one write per entry, because a
    crash inside it may keep any prefix of the batch. */
module Disk {
  import opened Entries
  import opened KvStore

  datatype Stable = Stable(term: nat, votedFor: int, commit: nat, applied: nat)

  datatype Snapshot = Snapshot(index: nat, term: nat, data: Payload)

  datatype Disk = Disk(stable: Stable, log: Log, snap: Option<Snapshot>)

  datatype Write =
    | SaveStable(stable: Stable)
    | AppendEntry(entry: LogEntry)
    | CutLog(from: nat)
    | CompactLog(through: nat)
    | SaveSnapshot(snap: Snapshot)

  const BLANK := Disk(Stable(0, NO_VOTE, 0, 0), [], None)

  predicate StableOk(s: Stable) {
    NO_VOTE <= s.votedFor && s.applied <= s.commit
  }

  predicate SnapshotOk(s: Snapshot) {
    (s.index == 0 ==> s.term == 0) && s.data.Image?
  }

  function BoundaryOf(snap: Option<Snapshot>): Boundary {
    if snap.None? then Boundary(0, 0) else Boundary(snap.value.index, snap.value.term)
  }

  /** Position of the first entry with index at least i. */
  function FirstFrom(log: Log, i: nat): (p: nat)
    ensures p <= |log| && (forall q :: 0 <= q < p ==> log[q].index < i)
    ensures p < |log| ==> log[p].index >= i
  {
    if log == [] || log[0].index >= i then 0 else 1 + FirstFrom(log[1..], i)
  }

  predicate CanCut(log: Log, i: nat) {
    i != 0 && (log == [] || i <= log[|log| - 1].index + 1)
  }

  function Cut(log: Log, i: nat): Log {
    if CanCut(log, i) then log[..FirstFrom(log, i)] else log
  }

  function Compact(log: Log, through: nat): Log {
    log[FirstFrom(log, through + 1)..]
  }

  /** What Load accepts: valid entries with consecutive indexes. */
  predicate Loadable(log: Log) {
    && (forall i :: 0 <= i < |log| ==> ValidEntry(log[i]))
    && (forall i :: 0 < i < |log| ==> log[i].index == log[i - 1].index + 1)
  }

  function Perform(d: Disk, w: Write): Disk {
    match w
    case SaveStable(s) => d.(stable := s)
    case AppendEntry(e) => d.(log := d.log + [e])
    case CutLog(i) => d.(log := Cut(d.log, i))
    case CompactLog(i) => d.(log := Compact(d.log, i))
    case SaveSnapshot(s) => d.(snap := Some(s))
  }

  function PerformAll(d: Disk, ws: seq<Write>): Disk
    decreases |ws|
  {
    if ws == [] then d else PerformAll(Perform(d, ws[0]), ws[1..])
  }

  function Appends(es: Log): seq<Write> {
    seq(|es|, i requires 0 <= i < |es| => AppendEntry(es[i]))
  }

  lemma Nothing(d: Disk, ws: seq<Write>)
    ensures PerformAll(d, ws[..0]) == d
  {
  }

  lemma {:induction false} PerformConcat(d: Disk, a: seq<Write>, b: seq<Write>)
    ensures PerformAll(d, a + b) == PerformAll(PerformAll(d, a), b)
    decreases |a|
  {
    if a == [] {
      assert a + b == b;
    } else {
      assert (a + b)[0] == a[0] && (a + b)[1..] == a[1..] + b;
      PerformConcat(Perform(d, a[0]), a[1..], b);
    }
  }

  lemma {:induction false} PerformAppends(d: Disk, es: Log)
    ensures PerformAll(d, Appends(es)) == d.(log := d.log + es)
    decreases |es|
  {
    if es != [] {
      assert Appends(es)[1..] == Appends(es[1..]);
      PerformAppends(Perform(d, AppendEntry(es[0])), es[1..]);
      assert d.log + [es[0]] + es[1..] == d.log + es;
    } else {
      assert d.log + es == d.log;
    }
  }

  lemma AppendsPrefix(es: Log, k: nat)
    requires k <= |es|
    ensures Appends(es)[..k] == Appends(es[..k])
  {
  }

  /** On a suffix of a history starting after base, cutting and compacting are slices. */
  lemma FirstFromAt(h: Log, base: nat, i: nat)
    requires Indexed(h) && base <= |h|
    ensures FirstFrom(h[base..], i) == if i <= base + 1 then 0 else if i <= |h| then i - 1 - base else |h| - base
  {
    var p := FirstFrom(h[base..], i);
    if p < |h| - base { assert h[base..][p] == h[base + p]; }
    if p > 0 { assert h[base..][p - 1] == h[base + p - 1]; }
  }

  lemma CutSuffix(h: Log, base: nat, i: nat)
    requires Indexed(h) && base < i <= |h| + 1
    ensures CanCut(h[base..], i) && Cut(h[base..], i) == h[..i - 1][base..]
  {
    FirstFromAt(h, base, i);
  }

  lemma CompactSuffix(h: Log, base: nat, i: nat)
    requires Indexed(h) && base <= i <= |h|
    ensures Compact(h[base..], i) == h[i..]
  {
    hide FirstFrom;
    FirstFromAt(h, base, i + 1);
    assert h[base..][i - base..] == h[i..];
  }

  lemma SuffixLoadable(h: Log, base: nat, limit: nat)
    requires Indexed(h) && AllFit(h, limit) && base <= |h|
    ensures Loadable(h[base..])
  {
    var log := h[base..];
    forall i | 0 <= i < |log| ensures ValidEntry(log[i]) { assert Fits(h[base + i], limit); }
  }
}
