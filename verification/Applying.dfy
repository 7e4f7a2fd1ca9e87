/** The apply loop gets everything committed into the store, one entry after
    another, and snapshots it exactly when the threshold is reached. */
module Applying {
  import opened Entries
  import opened KvStore
  import opened Disk
  import opened Node
  import opened Relation
  import opened Snapshots
  import opened ApplyLoop
  import opened Cluster
  import opened Refinement
  import opened Safety
  import opened Progress
  import opened Cursors
  import P = Protocol

  // --------------------------------------------------------- applying entries

  /** One turn of the apply loop: pick, apply, publish. */
  function Turn(n: Node): Node {
    Publish(RunEntry(Pick(n).node).node).node
  }

  function Turns(n: Node, k: nat): Node
    decreases k
  {
    if k == 0 then n else Turns(Turn(n), k - 1)
  }

  /** n' differs from n only in how far it has applied, with the store that goes with it. */
  predicate AppliedTo(n: Node, n': Node, k: nat, store: Store) {
    n' == n.(applied := k, store := store, disk := n.disk.(stable := n.disk.stable.(applied := k)))
  }

  /** The three sections in turn apply exactly the next committed entry. */
  lemma TurnApplies(n: Node, id: int, s: P.State)
    requires P.Inv(s) && NodeRel(n, id, s) && n.phase == Idle && n.applied < n.commit
    ensures NodeRel(Turn(n), id, s) && n.commit <= |s.done|
    ensures AppliedTo(n, Turn(n), n.applied + 1, Fold(s.done[..n.applied + 1]))
    ensures Pick(n).reply && RunEntry(Pick(n).node).reply && Publish(RunEntry(Pick(n).node).node).reply
  {
    hide P.Inv, NodeRel, Fold, Apply, EntryAt, Perform;
    Picking(n, id, s);
    var n1 := Pick(n).node;
    NextIs(n, id, s);
    Running(n1, id, s);
    var n2 := RunEntry(n1).node;
    Publishing(n2, id, s);
    IdleStore(n, id, s);
    FoldStep(s.done, n.applied);
    DiskStable(n, id, s);
    PublishIs(n2, n.applied + 1);
  }

  lemma NextIs(n: Node, id: int, s: P.State)
    requires P.Inv(s) && NodeRel(n, id, s) && n.applied < n.commit
    ensures n.commit <= |s.done| && EntryAt(n, n.applied + 1) == Some(s.done[n.applied]) && s.done[n.applied].index == n.applied + 1
    ensures NO_VOTE <= n.votedFor
  {
    hide P.Inv, PhaseRel, CfgRel, RoleRel, Mirror, P.Certified, P.Anchored, EntryAt;
    MemberHistory(s, id);
    EntryIs(n, s.at[id].hist, n.applied + 1);
    AppliedIs(n, id, s, n.applied + 1);
    AppliedIs(n, id, s, n.commit);
  }

  lemma IdleStore(n: Node, id: int, s: P.State)
    requires NodeRel(n, id, s) && n.phase == Idle
    ensures n.applied <= n.commit <= |s.done| && n.store == Fold(s.done[..n.applied])
  {
    hide CfgRel, RoleRel, Mirror, MemberRel, SnapRel, Fold;
  }

  lemma PublishIs(n: Node, k: nat)
    requires n.phase.Applied? && n.phase.entry.index == k == n.applied + 1 <= n.commit && NO_VOTE <= n.votedFor && n.disk.stable == StableOf(n)
    ensures var n' := Publish(n).node; Publish(n).reply && n' == n.(applied := k, phase := Idle, disk := n.disk.(stable := n.disk.stable.(applied := k)))
  {
  }

  /** Whatever the loop has applied, it is published if and only if it is the
      very next entry and committed; otherwise the loop stops where it was. */
  lemma PublishIff(n: Node)
    requires n.phase.Applied? && NO_VOTE <= n.votedFor
    ensures var o := Publish(n);
      && (o.reply <==> n.phase.entry.index == n.applied + 1 <= n.commit)
      && o.node.applied == (if o.reply then n.applied + 1 else n.applied) && o.node.phase == (if o.reply then Idle else Stopped)
      && o.node.store == n.store && o.node.commit == n.commit
  {
  }

  lemma {:induction false} TurnsApply(n: Node, id: int, s: P.State, k: nat)
    requires P.Inv(s) && NodeRel(n, id, s) && n.phase == Idle && n.applied + k <= n.commit
    ensures NodeRel(Turns(n, k), id, s) && n.commit <= |s.done|
    ensures AppliedTo(n, Turns(n, k), n.applied + k, Fold(s.done[..n.applied + k]))
    decreases k
  {
    hide P.Inv, NodeRel, Fold, Turn;
    IdleStore(n, id, s);
    if k == 0 {
      DiskStable(n, id, s);
    } else {
      TurnApplies(n, id, s);
      TurnsApply(Turn(n), id, s, k - 1);
    }
  }

  /** In every reachable state in which the apply loop is idle, it applies the
      committed entries one by one, compacted log or not, and as many turns as
      are missing bring the store to the whole committed prefix. */
  lemma AppliesAll(run: seq<Cluster>, events: seq<Event>, limit: nat, i: nat, id: int, k: nat) returns (committed: Log)
    requires IsRun(run, events, limit) && i < |run| && id in run[i].procs && run[i].procs[id].Up?
    requires var n := run[i].procs[id].node; n.phase == Idle && n.applied + k <= n.commit
    ensures ClusterConforms(run[i], committed)
    ensures var n := run[i].procs[id].node;
      n.commit <= |committed| && AppliedTo(n, Turns(n, k), n.applied + k, Fold(committed[..n.applied + k]))
  {
    hide IsRun, P.Inv, NodeRel, ClusterConforms, Turns, Fold, AppliedTo, Rel;
    var s := Reached(run, events, limit, i, id);
    UpNode(run[i], s, id);
    RelConforms(run[i], s);
    committed := s.done;
    TurnsApply(run[i].procs[id].node, id, s, k);
  }

  // ---------------------------------------------------------- local snapshots

  /** One look at the threshold, and the two sections that follow if it is reached. */
  function Snap(n: Node): Node {
    if Capture(n).reply then PublishImage(SaveImage(Capture(n).node).node).node else n
  }

  /** In every reachable state in which the apply loop is idle: the boundary
      moves to the applied index if and only if the threshold of entries is
      applied past it; then the image of the applied prefix is on disk, the log
      is what follows, and no entry after the boundary is touched. */
  lemma SnapshotsIff(run: seq<Cluster>, events: seq<Event>, limit: nat, i: nat, id: int) returns (committed: Log)
    requires IsRun(run, events, limit) && i < |run| && id in run[i].procs && run[i].procs[id].Up? && run[i].procs[id].node.phase == Idle
    ensures ClusterConforms(run[i], committed)
    ensures var n := run[i].procs[id].node; var n' := Snap(n);
      && n.applied <= |committed|
      && (n.applied - n.meta.index < n.cfg.threshold ==> n' == n && Capture(n).node == n)
      && (n.applied - n.meta.index >= n.cfg.threshold ==>
            && n'.meta == Boundary(n.applied, TermIn(committed, n.applied))
            && n'.disk.snap == Some(Snapshot(n.applied, TermIn(committed, n.applied), Image(Fold(committed[..n.applied]))))
            && LastIndex(n') == LastIndex(n) && SameThrough(n, n', LastIndex(n)) && n'.disk.log == n'.log
            && n' == n.(meta := n'.meta, log := n'.log, disk := n'.disk))
  {
    hide IsRun, P.Inv, NodeRel, ClusterConforms, Fold, Rel, Snap, SameThrough, LastIndex;
    var s := Reached(run, events, limit, i, id);
    UpNode(run[i], s, id);
    RelConforms(run[i], s);
    committed := s.done;
    var n := run[i].procs[id].node;
    IdleStore(n, id, s);
    if n.applied - n.meta.index >= n.cfg.threshold { SnapIs(n, id, s); } else { NotDue(n); }
  }

  lemma NotDue(n: Node)
    requires n.applied - n.meta.index < n.cfg.threshold
    ensures Snap(n) == n && Capture(n).node == n
  {
    hide TermAt;
  }

  lemma SnapIs(n: Node, id: int, s: P.State)
    requires P.Inv(s) && NodeRel(n, id, s) && n.phase == Idle && n.applied - n.meta.index >= n.cfg.threshold && n.applied <= |s.done|
    ensures var n', t := Snap(n), TermIn(s.done, n.applied);
      && n'.meta == Boundary(n.applied, t) && n'.disk.snap == Some(Snapshot(n.applied, t, Image(Fold(s.done[..n.applied]))))
      && LastIndex(n') == LastIndex(n) && SameThrough(n, n', LastIndex(n)) && n'.disk.log == n'.log
      && n' == n.(meta := n'.meta, log := n'.log, disk := n'.disk)
  {
    hide P.Inv, PhaseRel, CfgRel, RoleRel, SnapRel, Fold, SameThrough, LastIndex, TermAt, EntriesFrom, Compact, P.Certified, P.Anchored, AllFit, Indexed, SuffixOf;
    MemberHistory(s, id);
    var h := s.at[id].hist;
    AppliedIs(n, id, s, n.applied);
    TermIs(n, h, n.applied);
    EntriesAre(n, h, n.applied + 1);
    CompactTail(n, h, n.applied);
    IdleStore(n, id, s);
    Positive(n, id, s);
    Snapped(n, TermIn(h, n.applied), h[n.applied..]);
    var n' := Snap(n);
    TailSuffix(n, n', h);
    LastIs(n, h);
    LastIs(n', h);
    HistoriesSame(n, n', h, h, |h|);
  }

  lemma Positive(n: Node, id: int, s: P.State)
    requires NodeRel(n, id, s)
    ensures 0 < n.cfg.threshold && n.disk.log == n.log && n.applied <= n.commit
  {
    hide RoleRel, PhaseRel, SnapRel, SuffixOf;
  }

  lemma CompactTail(n: Node, h: Log, k: nat)
    requires SuffixOf(n.log, n.meta, h) && Indexed(h) && n.meta.index <= k <= |h|
    ensures Compact(n.log, k) == h[k..]
  {
    CompactSuffix(h, n.meta.index, k);
  }

  lemma TailSuffix(n: Node, n': Node, h: Log)
    requires n.applied <= |h| && n'.meta == Boundary(n.applied, TermIn(h, n.applied)) && n'.log == h[n.applied..]
    ensures SuffixOf(n'.log, n'.meta, h)
  {
  }

  lemma Snapped(n: Node, t: nat, rest: Log)
    requires n.phase == Idle && n.cfg.threshold > 0 && n.applied - n.meta.index >= n.cfg.threshold && n.applied <= n.commit
    requires TermAt(n, n.applied) == Some(t) && EntriesFrom(n, n.applied + 1) == Some(rest) && n.disk.log == n.log && Compact(n.log, n.applied) == rest
    ensures Snap(n) == n.(meta := Boundary(n.applied, t), log := rest,
                          disk := n.disk.(log := rest, snap := Some(Snapshot(n.applied, t, Image(n.store)))))
  {
    hide Compact, TermAt, EntriesFrom, PublishImage;
    var snap := Snapshot(n.applied, t, Image(n.store));
    var n2 := n.(phase := Saved(n.applied, t), disk := n.disk.(snap := Some(snap)));
    assert SaveImage(Capture(n).node).node == n2;
    ImagePublished(n, n2, t, rest);
  }

  lemma ImagePublished(n: Node, n2: Node, t: nat, rest: Log)
    requires n2 == n.(phase := Saved(n.applied, t), disk := n2.disk) && n2.disk.log == n.log
    requires n.meta.index < n.applied <= n.commit && EntriesFrom(n, n.applied + 1) == Some(rest) && Compact(n.log, n.applied) == rest
    ensures PublishImage(n2).node == n2.(phase := Idle, meta := Boundary(n.applied, t), log := rest, disk := n2.disk.(log := rest))
  {
    hide Compact, LastIndexFor;
    assert EntriesFrom(n2, n.applied + 1) == EntriesFrom(n, n.applied + 1);
  }
}
