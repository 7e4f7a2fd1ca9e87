/** How a concrete node, running or crashed, stands for a member of the
    protocol: its compacted log is the end of a full history, its disk mirrors
    its memory, and every image is the fold of a committed prefix. */
module Relation {
  import opened Entries
  import opened KvStore
  import opened Disk
  import opened Node
  import P = Protocol
  import S = ProtocolSteps

  // ------------------------------------------------------------ definitions

  ghost predicate CfgRel(cfg: Config, id: int, s: P.State) {
    && cfg.id == id && cfg.limit == s.limit && 0 < cfg.threshold
    && (forall i, j :: 0 <= i < j < |cfg.peers| ==> cfg.peers[i] != cfg.peers[j])
    && (set p | p in cfg.peers) == s.nodes - {id}
  }

  /** log is what remains of h after compaction through meta. */
  predicate SuffixOf(log: Log, meta: Boundary, h: Log) {
    meta.index <= |h| && log == h[meta.index..] && meta.term == TermIn(h, meta.index)
  }

  /** snap is the image of a committed prefix. */
  predicate SnapRel(snap: Snapshot, done: Log) {
    && snap.index <= |done|
    && snap.term == TermIn(done, snap.index)
    && snap.data == Image(Fold(done[..snap.index]))
  }

  /** The applied prefix, with at most one of its own entries applied again on top. */
  predicate OnceMore(store: Store, done: Log, applied: nat)
    requires applied <= |done|
  {
    store == Fold(done[..applied]) || exists k :: 0 <= k < applied && store == Apply(Fold(done[..applied]), done[k])
  }

  predicate PhaseRel(n: Node, done: Log) {
    && n.applied <= n.commit <= |done|
    && match n.phase
       case Idle => n.store == Fold(done[..n.applied])
       case Captured(i, t) => n.store == Fold(done[..n.applied]) && i == n.applied && t == TermIn(done, i)
       case Saved(i, t) => n.store == Fold(done[..n.applied]) && i == n.applied && t == TermIn(done, i)
       case Picked(e) =>
         && n.store == Fold(done[..n.applied])
         && 0 < e.index <= n.commit && e.index <= n.applied + 1 && e == done[e.index - 1]
       case Applied(e) =>
         && 0 < e.index <= n.commit && e.index <= n.applied + 1
         && (if e.index == n.applied + 1 then n.store == Fold(done[..n.applied + 1]) else OnceMore(n.store, done, n.applied))
       case Stopped => OnceMore(n.store, done, n.applied)
  }

  /** The disk is the memory, except that a snapshot may be saved before its boundary is published. */
  predicate Mirror(n: Node) {
    && n.disk.log == n.log
    && n.disk.stable == StableOf(n)
    && (if n.phase.Saved? then BoundaryOf(n.disk.snap) == Boundary(n.phase.index, n.phase.term)
        else BoundaryOf(n.disk.snap) == n.meta)
  }

  ghost predicate RoleRel(n: Node, id: int, s: P.State) {
    && (n.role.Candidate? ==>
          && (n.term, id) in s.ballot && s.ballot[(n.term, id)] == id
          && (forall p :: p in n.granted ==>
                p in n.cfg.peers && (n.term, p) in s.ballot && s.ballot[(n.term, p)] == id))
    && (n.role.Leader? ==>
          && P.Acked(s, n.term, id, LastIndex(n))
          && (forall p :: p in n.match_ ==> n.match_[p] == 0 || P.Acked(s, n.term, p, n.match_[p])))
  }

  ghost predicate MemberRel(n: Node, m: P.Member) {
    && n.term == m.term && n.votedFor == m.vote && n.role == m.role && n.commit == m.commit
    && SuffixOf(n.log, n.meta, m.hist)
    && NO_VOTE <= n.votedFor
    && n.meta.index <= n.applied <= n.commit
  }

  ghost predicate NodeRel(n: Node, id: int, s: P.State) {
    && id in s.at
    && CfgRel(n.cfg, id, s)
    && MemberRel(n, s.at[id])
    && Mirror(n)
    && (n.disk.snap.Some? ==> SnapRel(n.disk.snap.value, s.done))
    && RoleRel(n, id, s)
    && PhaseRel(n, s.done)
  }

  /** The log startup keeps once it has reconciled log with boundary b. */
  function Reconciled(log: Log, b: Boundary): Option<Log> {
    match Reconcile(log, b)
    case None => None
    case Some(ws) => Some(PerformAll(BLANK.(log := log), ws).log)
  }

  /** A crashed node's disk: startup will find exactly m's history after its boundary. */
  ghost predicate DiskRel(d: Disk, m: P.Member, done: Log) {
    var b := BoundaryOf(d.snap);
    && StableOk(d.stable) && d.stable.term == m.term && d.stable.votedFor == m.vote
    && Max(d.stable.commit, b.index) == m.commit
    && (d.snap.Some? ==> SnapRel(d.snap.value, done))
    && Loadable(d.log)
    && b.index <= |m.hist| && Reconciled(d.log, b) == Some(m.hist[b.index..])
  }

  // ------------------------------------------- what a member's history is like

  predicate HistoryOk(h: Log, commit: nat, done: Log, limit: nat) {
    Indexed(h) && AllFit(h, limit) && commit <= |h| && h[..commit] <= done
  }

  lemma MemberHistory(s: P.State, id: int)
    requires P.Inv(s) && id in s.at
    ensures HistoryOk(s.at[id].hist, s.at[id].commit, s.done, s.limit)
    ensures P.Below(s.at[id].hist, s.at[id].term) && P.Anchored(s, s.at[id].hist)
    ensures P.Certified(s, s.at[id].hist[..s.at[id].commit], s.at[id].term)
    ensures id in s.nodes && 0 <= id && s.at.Keys == s.nodes
  {
    hide P.Roles, P.Ballots, P.Acks, P.Kept, P.VotesSafe, P.Complete;
    assert P.Anchored(s, s.at[id].hist) && P.Below(s.at[id].hist, s.at[id].term) by { hide P.Shape, P.Commits; }
    S.AnchoredShape(s, s.at[id].hist);
  }

  // --------------------------------------- lookups against the full history

  lemma LastIs(n: Node, h: Log)
    requires SuffixOf(n.log, n.meta, h) && Indexed(h)
    ensures LastIndex(n) == |h| && LastTermOf(n) == LastTerm(h)
  {
    if n.log != [] { assert n.log[|n.log| - 1] == h[|h| - 1]; }
    TermIs(n, h, |h|);
  }

  lemma EntryIs(n: Node, h: Log, i: nat)
    requires SuffixOf(n.log, n.meta, h) && Indexed(h)
    ensures EntryAt(n, i) == if n.meta.index < i <= |h| then Some(h[i - 1]) else None
    ensures Offset(n, i) == if n.meta.index < i <= |h| then Some(i - 1 - n.meta.index) else None
  {
    if n.log != [] { assert n.log[|n.log| - 1] == h[|h| - 1]; }
    if n.meta.index < i <= |h| { assert n.log[i - 1 - n.meta.index] == h[i - 1]; }
  }

  /** Index lookups see through compaction down to the boundary. */
  lemma TermIs(n: Node, h: Log, i: nat)
    requires SuffixOf(n.log, n.meta, h) && Indexed(h)
    ensures TermAt(n, i) == if n.meta.index <= i <= |h| then Some(TermIn(h, i)) else None
  {
    EntryIs(n, h, i);
  }

  lemma EntriesAre(n: Node, h: Log, i: nat)
    requires SuffixOf(n.log, n.meta, h) && Indexed(h)
    ensures EntriesFrom(n, i) == if n.meta.index < i <= |h| + 1 then Some(h[i - 1..]) else None
  {
    hide LastIndexFor, Offset, EntryAt, Indexed, LastTermOf, TermAt;
    LastIs(n, h);
    EntryIs(n, h, i);
    if n.meta.index < i <= |h| {
      assert h[n.meta.index..][i - 1 - n.meta.index..] == h[i - 1..];
    } else if i == |h| + 1 {
      assert h[i - 1..] == [];
    }
  }

  // -------------------------------------------------------------- stability

  lemma TermInPrefix(a: Log, b: Log, i: nat)
    requires a <= b && i <= |a|
    ensures TermIn(a, i) == TermIn(b, i) && a[..i] == b[..i]
  {
  }

  lemma SnapRelGrows(snap: Snapshot, done: Log, done': Log)
    requires SnapRel(snap, done) && done <= done'
    ensures SnapRel(snap, done')
  {
    TermInPrefix(done, done', snap.index);
  }

  lemma PhaseRelGrows(n: Node, done: Log, done': Log)
    requires PhaseRel(n, done) && done <= done'
    ensures PhaseRel(n, done')
  {
    assert done[..n.applied] == done'[..n.applied];
    if n.applied < |done| { assert done[..n.applied + 1] == done'[..n.applied + 1]; }
  }

  /** A node that does not move stays related while facts grow. */
  lemma NodeRelGrows(n: Node, id: int, s: P.State, s': P.State)
    requires NodeRel(n, id, s) && P.Grows(s, s') && id in s'.at && s'.at[id] == s.at[id]
    ensures NodeRel(n, id, s')
  {
    PhaseRelGrows(n, s.done, s'.done);
    if n.disk.snap.Some? { SnapRelGrows(n.disk.snap.value, s.done, s'.done); }
    assert RoleRel(n, id, s') by { hide PhaseRel, Mirror, CfgRel, MemberRel; }
  }

  lemma DiskRelGrows(d: Disk, m: P.Member, done: Log, done': Log)
    requires DiskRel(d, m, done) && done <= done'
    ensures DiskRel(d, m, done')
  {
    if d.snap.Some? { SnapRelGrows(d.snap.value, done, done'); }
  }

  // ------------------------------------------------------------ disk lemmas

  /** A log that starts at or before the boundary entry reconciles to the history after it. */
  lemma ReconcileSuffix(h: Log, base: nat, b: Boundary)
    requires Indexed(h) && base <= b.index <= |h| && b.term == TermIn(h, b.index)
    ensures Reconciled(h[base..], b) == Some(h[b.index..])
  {
    var log := h[base..];
    if base == b.index {
      if log != [] { assert log[0] == h[base]; }
    } else {
      assert log[0] == h[base] && log[b.index - 1 - base] == h[b.index - 1];
      assert Reconcile(log, b) == Some([CompactLog(b.index)]) by { hide Compact, Perform, PerformAll; }
      CompactSuffix(h, base, b.index);
      PerformOne(BLANK.(log := log), CompactLog(b.index));
    }
  }

  /** A log without the boundary entry, or with another term there, is dropped. */
  lemma ReconcileStale(h: Log, base: nat, b: Boundary)
    requires Indexed(h) && base < b.index && base <= |h|
    requires b.index <= |h| ==> TermIn(h, b.index) != b.term
    ensures Reconciled(h[base..], b) == Some([])
  {
    var log := h[base..];
    if log != [] {
      assert log[0] == h[base];
      if b.index <= |h| { assert log[b.index - 1 - base] == h[b.index - 1]; }
      CutSuffix(h, base, base + 1);
      assert h[..base][base..] == [];
      PerformOne(BLANK.(log := log), CutLog(base + 1));
    }
  }

  lemma PerformOne(d: Disk, w: Write)
    ensures PerformAll(d, [w]) == Perform(d, w)
  {
    assert [w][1..] == [];
  }

  /** At every release of the lock the disk alone determines the member. */
  lemma MirrorDisk(n: Node, id: int, s: P.State)
    requires P.Inv(s) && NodeRel(n, id, s)
    ensures DiskRel(n.disk, s.at[id], s.done)
  {
    hide P.Inv;
    MemberHistory(s, id);
    var h := s.at[id].hist;
    SuffixLoadable(h, n.meta.index, s.limit);
    var b := BoundaryOf(n.disk.snap);
    if n.phase.Saved? {
      assert b.index == n.applied <= n.commit;
      TermInPrefix(h[..n.commit], s.done, b.index);
    }
    ReconcileSuffix(h, n.meta.index, b);
  }
}
