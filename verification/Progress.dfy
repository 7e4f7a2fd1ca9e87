/** What handlers and restarts guarantee in every reachable state: no index
    goes back, refusals that should not happen do not, restarts lose nothing,
    and exactly when an overtaken apply leaves the store wrong. */
module Progress {
  import opened Entries
  import opened KvStore
  import opened Disk
  import opened Node
  import opened Relation
  import opened Elections
  import opened Replication
  import opened Snapshots
  import opened ApplyLoop
  import opened Startup
  import opened Cluster
  import opened Refinement
  import opened Safety
  import P = Protocol
  import S = ProtocolSteps

  lemma {:induction false} Reached(run: seq<Cluster>, events: seq<Event>, limit: nat, i: nat, id: int) returns (s: P.State)
    requires IsRun(run, events, limit) && i < |run| && id in run[i].procs
    ensures P.Inv(s) && ProcRel(run[i].procs[id], id, s) && NetRel(run[i], s) && Rel(run[i], s)
  {
    hide IsRun, P.Inv, NetRel, ProcRel;
    var states := RunRefines(run, events, limit);
    s := states[i];
    assert Rel(run[i], s);
  }

  // ----------------------------------------------------- unreachable refusals

  /** Every AppendEntries ever sent carries its leader's log at least up to the
      commit index it announces. */
  lemma CommitWithinEntries(run: seq<Cluster>, events: seq<Event>, limit: nat, i: nat, m: Msg)
    requires IsRun(run, events, limit) && i < |run| && m in run[i].net && m.AppendAsk?
    ensures m.append.commit <= m.append.prevIndex + |m.append.entries|
  {
    hide IsRun, P.Inv, P.Certified;
    var states := RunRefines(run, events, limit);
    assert Rel(run[i], states[i]);
    assert MsgRel(m, states[i]);
  }

  /** The follower as the handler sees it once the request's term is adopted. */
  function Facing(n: Node, term: nat, leader: int): Node {
    (if term > n.term then BecomeFollower(n, term, leader).node else n).(role := Follower, leader := leader)
  }

  /** n already holds every entry of the request. */
  predicate HoldsAll(n: Node, r: AppendReq) {
    forall i :: 0 <= i < |r.entries| ==> EntryAt(n, r.prevIndex + 1 + i) == Some(r.entries[i])
  }

  /** n' is n with the request's entries in place: nothing before them is
      touched, and what followed them survives only if all were there already. */
  predicate Merged(n: Node, r: AppendReq, n': Node) {
    && HoldsAll(n', r)
    && (if HoldsAll(n, r) then n'.log == n.log else LastIndex(n') == r.prevIndex + |r.entries|)
    && (forall y: nat :: y <= r.prevIndex ==> EntryAt(n', y) == EntryAt(n, y))
    && n'.meta == n.meta && n'.applied == n.applied && n'.store == n.store && n'.phase == n.phase
  }

  /** Once a request of the follower's or a later term passes the prefix check,
      no refusal of the plan can fire, its entries are in the log, and the
      follower commits exactly what the leader announced. */
  lemma RefusalsUnreachable(run: seq<Cluster>, events: seq<Event>, limit: nat, i: nat, id: int, m: Msg)
    requires IsRun(run, events, limit) && i < |run| && id in run[i].procs && run[i].procs[id].Up?
    requires m in run[i].net && m.AppendAsk? && m.append.term >= run[i].procs[id].node.term
    requires MatchesPrefix(run[i].procs[id].node, m.append.prevIndex, m.append.prevTerm)
    ensures var n, r := run[i].procs[id].node, m.append; var o := HandleAppend(n, r);
      && PlanFrom(Facing(n, r.term, r.leader), r.prevIndex, r.entries, 0).Plan?
      && o.reply == AppendResp(r.term, true) && o.node.commit == Max(n.commit, r.commit)
      && r.prevIndex + |r.entries| <= LastIndex(o.node) && Merged(n, r, o.node)
  {
    hide IsRun, P.Inv, NodeRel, AppendReqRel, PlanFrom, MatchesPrefix, AppendInTerm, BecomeFollower, Merged;
    var s := Reached(run, events, limit, i, id);
    assert MsgRel(m, s);
    var n, r := run[i].procs[id].node, m.append;
    UpRel(n, id, s);
    var n1, s1 := n, s;
    if r.term > n.term {
      s1 := FollowNewTerm(n, id, s, r.term, r.leader);
      n1 := BecomeFollower(n, r.term, r.leader).node;
      AppendReqGrows(r, s, s1);
      BumpFree(n, r);
    }
    AcceptedInTerm(n1, id, s1, r);
    MergedSame(n1, n, r, AppendInTerm(n1, r).node);
  }

  lemma MergedSame(n1: Node, n: Node, r: AppendReq, n': Node)
    requires n1.log == n.log && n1.meta == n.meta && n1.applied == n.applied && n1.store == n.store && n1.phase == n.phase
    ensures Merged(n1, r, n') == Merged(n, r, n')
  {
    assert forall y :: EntryAt(n1, y) == EntryAt(n, y);
    hide EntryAt;
  }

  lemma BumpFree(n: Node, r: AppendReq)
    ensures var n1 := BecomeFollower(n, r.term, r.leader).node;
      && n1.commit == n.commit && n1.log == n.log && n1.meta == n.meta && n1.applied == n.applied && n1.store == n.store && n1.phase == n.phase
      && MatchesPrefix(n1, r.prevIndex, r.prevTerm) == MatchesPrefix(n, r.prevIndex, r.prevTerm)
  {
    hide Perform;
  }

  lemma AcceptedInTerm(n: Node, id: int, s: P.State, r: AppendReq)
    requires P.Inv(s) && NodeRel(n, id, s) && AppendReqRel(r, s) && r.term == n.term
    requires MatchesPrefix(n, r.prevIndex, r.prevTerm)
    ensures PlanFrom(n.(role := Follower, leader := r.leader), r.prevIndex, r.entries, 0).Plan?
    ensures var o := AppendInTerm(n, r);
      o.reply == AppendResp(n.term, true) && o.node.commit == Max(n.commit, r.commit)
      && r.prevIndex + |r.entries| <= LastIndex(o.node) && Merged(n, r, o.node)
  {
    hide P.Inv, NodeRel, AppendReqRel, PlanFrom, MatchesPrefix, AppendInTerm, Merged;
    var n0 := n.(role := Follower, leader := r.leader);
    var s0 := FollowSameTerm(n, id, s, r.leader);
    AppendReqGrows(r, s, s0);
    RoleFree(n, r);
    SameAppend(n, r);
    AcceptedOutcome(n0, id, s0, r);
    MergedSame(n0, n, r, AppendInTerm(n, r).node);
  }

  lemma RoleFree(n: Node, r: AppendReq)
    ensures var n0 := n.(role := Follower, leader := r.leader);
      && MatchesPrefix(n0, r.prevIndex, r.prevTerm) == MatchesPrefix(n, r.prevIndex, r.prevTerm)
      && PlanFrom(n0, r.prevIndex, r.entries, 0) == PlanFrom(n, r.prevIndex, r.entries, 0)
  {
    PlanFree(n, n.(role := Follower, leader := r.leader), r.prevIndex, r.entries, 0);
  }

  lemma {:induction false} PlanFree(n: Node, n0: Node, prev: nat, entries: Log, i: nat)
    requires i <= |entries| && n0.log == n.log && n0.meta == n.meta && n0.commit == n.commit
    ensures PlanFrom(n0, prev, entries, i) == PlanFrom(n, prev, entries, i)
    decreases |entries| - i
  {
    if i < |entries| { PlanFree(n, n0, prev, entries, i + 1); }
  }

  lemma AcceptedOutcome(n: Node, id: int, s: P.State, r: AppendReq)
    requires P.Inv(s) && NodeRel(n, id, s) && AppendReqRel(r, s) && r.term == n.term
    requires n.role == Follower && n.leader == r.leader && MatchesPrefix(n, r.prevIndex, r.prevTerm)
    ensures PlanFrom(n, r.prevIndex, r.entries, 0).Plan?
    ensures var o := AppendInTerm(n, r);
      o.reply == AppendResp(n.term, true) && o.node.commit == Max(n.commit, r.commit)
      && r.prevIndex + |r.entries| <= LastIndex(o.node) && Merged(n, r, o.node)
  {
    hide P.Inv, NodeRel, PlanFrom, MatchesPrefix, AppendInTerm, CutTo, AddAll, S.CanAdopt, P.Certified, Merged;
    NodeBasics(n, id, s);
    var j := AppendShape(n, id, s, r);
    var s' := AppendAccepted(n, id, s, r);
    var o := AppendInTerm(n, r);
    AppendKeepsTerm(n, r);
    AckReach(o.node, id, s', r.term, r.prevIndex + |r.entries|);
    CommitOutcome(n, id, s, r, j);
    PrefixAgrees(n, id, s, r);
    Merges(n, o.node, id, s, s', r);
  }

  /** Histories that stand for a merge make one. */
  lemma Merges(n: Node, n': Node, id: int, s: P.State, s': P.State, r: AppendReq)
    requires P.Inv(s) && P.Inv(s') && NodeRel(n, id, s) && NodeRel(n', id, s') && AppendReqRel(r, s)
    requires n'.meta == n.meta && n'.applied == n.applied && n'.store == n.store && n'.phase == n.phase
    requires n.meta.index <= r.prevIndex <= |s.at[id].hist| && s.at[id].hist[..r.prevIndex] == s.lead[r.term][..r.prevIndex]
    requires var sent, h := s.lead[r.term][..r.prevIndex + |r.entries|], s.at[id].hist;
      s'.at[id].hist == if sent <= h then h else sent
    ensures Merged(n, r, n')
  {
    hide P.Inv, PhaseRel, CfgRel, Mirror, RoleRel, P.Certified, P.Anchored, AllFit;
    MemberHistory(s, id);
    MemberHistory(s', id);
    var e := r.prevIndex + |r.entries|;
    var sent := s.lead[r.term][..e];
    assert s.lead[r.term][..r.prevIndex] == sent[..r.prevIndex] && r.entries == sent[r.prevIndex..];
    MergesHistories(n, n', s.at[id].hist, s'.at[id].hist, sent, r);
  }

  lemma MergesHistories(n: Node, n': Node, h: Log, h': Log, sent: Log, r: AppendReq)
    requires SuffixOf(n.log, n.meta, h) && SuffixOf(n'.log, n'.meta, h') && Indexed(h) && Indexed(h')
    requires n'.meta == n.meta && n'.applied == n.applied && n'.store == n.store && n'.phase == n.phase
    requires |sent| == r.prevIndex + |r.entries| && r.entries == sent[r.prevIndex..]
    requires n.meta.index <= r.prevIndex <= |h| && h[..r.prevIndex] == sent[..r.prevIndex] && h' == if sent <= h then h else sent
    ensures Merged(n, r, n')
  {
    hide EntryAt, LastIndexFor, Indexed, HoldsAll, SuffixOf;
    HoldsSent(n, h, sent, r);
    HoldsSent(n', h', sent, r);
    LastIs(n', h');
    if sent <= h { SameLog(n, n', h); }
    forall y: nat | y <= r.prevIndex ensures EntryAt(n', y) == EntryAt(n, y) {
      EntryIs(n, h, y);
      EntryIs(n', h', y);
      if 0 < y { assert h[y - 1] == h[..r.prevIndex][y - 1] == sent[..r.prevIndex][y - 1]; }
    }
  }

  lemma SameLog(n: Node, n': Node, h: Log)
    requires SuffixOf(n.log, n.meta, h) && SuffixOf(n'.log, n'.meta, h) && n'.meta == n.meta
    ensures n'.log == n.log
  {
  }

  lemma HoldsSent(n: Node, h: Log, sent: Log, r: AppendReq)
    requires SuffixOf(n.log, n.meta, h) && Indexed(h) && n.meta.index <= r.prevIndex <= |h|
    requires |sent| == r.prevIndex + |r.entries| && r.entries == sent[r.prevIndex..] && h[..r.prevIndex] == sent[..r.prevIndex]
    ensures HoldsAll(n, r) <==> sent <= h
  {
    hide EntryAt, SuffixOf, Indexed;
    var prev, es := r.prevIndex, r.entries;
    forall i | 0 <= i < |es|
      ensures EntryAt(n, prev + 1 + i) == Some(es[i]) <==> prev + i < |h| && h[prev + i] == sent[prev + i]
    {
      EntryIs(n, h, prev + 1 + i);
    }
    if HoldsAll(n, r) {
      if es != [] { assert EntryAt(n, prev + 1 + (|es| - 1)) == Some(es[|es| - 1]); }
      forall q | 0 <= q < |sent| ensures q < |h| && h[q] == sent[q] {
        if q < prev { assert h[..prev][q] == sent[..prev][q]; } else { assert EntryAt(n, prev + 1 + (q - prev)) == Some(es[q - prev]); }
      }
    }
  }

  /** An acknowledging node's log reaches what it acknowledged. */
  lemma AckReach(n: Node, id: int, s: P.State, t: nat, k: nat)
    requires P.Inv(s) && NodeRel(n, id, s) && P.Acked(s, t, id, k) && n.term == t
    ensures k <= LastIndex(n)
  {
    hide P.Inv, PhaseRel, Mirror, RoleRel, CfgRel, P.Certified, P.Anchored;
    AckHeld(s, t, id, k);
    MemberHistory(s, id);
    LastIs(n, s.at[id].hist);
  }

  lemma CommitOutcome(n: Node, id: int, s: P.State, r: AppendReq, j: nat)
    requires P.Inv(s) && NodeRel(n, id, s) && AppendReqRel(r, s) && r.term == n.term
    requires n.role == Follower && n.leader == r.leader && MatchesPrefix(n, r.prevIndex, r.prevTerm)
    requires AppendInTerm(n, r).reply.success && r.prevIndex + |r.entries| <= LastIndex(AppendInTerm(n, r).node)
    ensures AppendInTerm(n, r).node.commit == Max(n.commit, r.commit)
  {
    hide P.Inv, NodeRel, PlanFrom, MatchesPrefix, P.Certified, Appends, PerformAll, Offset;
    assert r.commit <= r.prevIndex + |r.entries|;
  }

  lemma AppendKeepsTerm(n: Node, r: AppendReq)
    ensures AppendInTerm(n, r).node.term == n.term && AppendInTerm(n, r).node.meta == n.meta
    ensures var o := AppendInTerm(n, r);
      o.node.role == Follower && o.node.leader == r.leader && o.node.votedFor == n.votedFor && o.node.cfg == n.cfg && o.reply.term == n.term
    ensures AppendInTerm(n, r).node.applied == n.applied && AppendInTerm(n, r).node.store == n.store && AppendInTerm(n, r).node.phase == n.phase
    ensures forall w :: w in AppendInTerm(n, r).writes ==> !w.SaveSnapshot?
  {
    hide PlanFrom, MatchesPrefix, CutTo, AddAll, CommitUpTo;
    var n0 := n.(role := Follower, leader := r.leader);
    var plan := PlanFrom(n0, r.prevIndex, r.entries, 0);
    if plan.Plan? {
      var a := CutTo(n0, plan.cut);
      var b := AddAll(a.node, plan.add);
      PartsKeep(n0, plan.cut, plan.add, 0);
      PartsKeep(a.node, plan.cut, plan.add, 0);
      PartsKeep(b.node, plan.cut, plan.add, Min(r.commit, LastIndex(b.node)));
    }
  }

  predicate OnlyLog(n: Node, n': Node, ws: seq<Write>) {
    && n'.term == n.term && n'.role == n.role && n'.leader == n.leader && n'.votedFor == n.votedFor && n'.cfg == n.cfg
    && n'.meta == n.meta && n'.applied == n.applied && n'.store == n.store && n'.phase == n.phase
    && forall w :: w in ws ==> !w.SaveSnapshot?
  }

  lemma PartsKeep(n: Node, cut: nat, add: Log, c: nat)
    ensures OnlyLog(n, CutTo(n, cut).node, CutTo(n, cut).writes)
    ensures OnlyLog(n, AddAll(n, add).node, AddAll(n, add).writes)
    ensures OnlyLog(n, CommitUpTo(n, c).node, CommitUpTo(n, c).writes)
  {
    hide Offset, Perform, PerformAll, Loadable;
  }

  // ----------------------------------------------------------- install safety

  /** When an install of the follower's or a later term discards the whole
      local log, nothing committed is in it; when it keeps a suffix, the
      boundary entry is the leader's. */
  lemma InstallSafety(run: seq<Cluster>, events: seq<Event>, limit: nat, i: nat, id: int, m: Msg)
    requires IsRun(run, events, limit) && i < |run| && id in run[i].procs && run[i].procs[id].Up?
    requires m in run[i].net && m.InstallAsk? && m.install.index > run[i].procs[id].node.applied
    requires m.install.term >= run[i].procs[id].node.term && NoSnapshotRunning(run[i].procs[id].node)
    ensures var n, r := run[i].procs[id].node, m.install; var o := HandleInstall(n, r);
      && (TermAt(n, r.index) != Some(r.lastTerm) ==> n.commit < r.index && LastIndex(o.node) == r.index)
      && (TermAt(n, r.index) == Some(r.lastTerm) ==> LastIndex(o.node) == LastIndex(n) && SameThrough(n, o.node, LastIndex(n)))
      && o.reply == Some(InstallResp(r.term)) && o.node.commit == Max(n.commit, r.index) <= LastIndex(o.node)
      && o.node.store == r.data.kv && o.node.applied == r.index == o.node.meta.index
  {
    hide IsRun, P.Inv, NodeRel, InstallReqRel, KeptSuffix, InstallInTerm, SameThrough, ProcRel, BecomeFollower;
    var s := Reached(run, events, limit, i, id);
    assert MsgRel(m, s);
    var n, r := run[i].procs[id].node, m.install;
    UpRel(n, id, s);
    var n1, s1 := n, s;
    if r.term > n.term {
      s1 := FollowNewTerm(n, id, s, r.term, r.leader);
      n1 := BecomeFollower(n, r.term, r.leader).node;
      InstallReqGrows(r, s, s1);
      BumpLog(n, r);
    }
    InstalledInTerm(n1, id, s1, r);
    KeptIff(n, id, s, r);
    SameNode(n1, n, InstallInTerm(n1, r).node);
  }

  /** A suffix is kept exactly under a boundary entry of the snapshot's term. */
  lemma KeptIff(n: Node, id: int, s: P.State, r: InstallReq)
    requires P.Inv(s) && NodeRel(n, id, s) && InstallReqRel(r, s) && r.index > n.applied
    ensures KeptSuffix(n, r).Some? <==> TermAt(n, r.index) == Some(r.lastTerm)
  {
    hide P.Inv, PhaseRel, CfgRel, Mirror, RoleRel, P.Certified, P.Anchored, AllFit, InstallReqRel, TermAt, EntriesFrom;
    MemberHistory(s, id);
    TermIs(n, s.at[id].hist, r.index);
    EntriesAre(n, s.at[id].hist, r.index + 1);
  }

  lemma BumpLog(n: Node, r: InstallReq)
    ensures var n1 := BecomeFollower(n, r.term, r.leader).node;
      && n1.log == n.log && n1.meta == n.meta && n1.commit == n.commit && n1.applied == n.applied && n1.phase == n.phase
      && KeptSuffix(n1, r) == KeptSuffix(n, r)
  {
    hide Perform, KeptSuffix;
    var n1 := BecomeFollower(n, r.term, r.leader).node;
    assert n1.log == n.log && n1.meta == n.meta;
    hide BecomeFollower;
    KeptSame(n, n1, r);
  }

  lemma KeptSame(n: Node, n1: Node, r: InstallReq)
    requires n1.log == n.log && n1.meta == n.meta
    ensures KeptSuffix(n1, r) == KeptSuffix(n, r)
  {
  }

  lemma InstalledInTerm(n: Node, id: int, s: P.State, r: InstallReq)
    requires P.Inv(s) && NodeRel(n, id, s) && InstallReqRel(r, s) && r.term == n.term && NoSnapshotRunning(n)
    requires r.index > n.applied
    ensures var o := InstallInTerm(n, r);
      && (KeptSuffix(n, r).None? ==> n.commit < r.index && LastIndex(o.node) == r.index)
      && (KeptSuffix(n, r).Some? ==> LastIndex(o.node) == LastIndex(n) && SameThrough(n, o.node, LastIndex(n)))
      && o.reply == Some(InstallResp(n.term)) && o.node.commit == Max(n.commit, r.index) <= LastIndex(o.node)
      && o.node.store == r.data.kv && o.node.applied == r.index == o.node.meta.index
  {
    hide P.Inv, NodeRel, InstallReqRel, KeptSuffix, InstallInTerm, SameThrough;
    var s0 := FollowSameTerm(n, id, s, r.leader);
    var n0 := n.(role := Follower, leader := r.leader);
    InstallReqGrows(r, s, s0);
    ImageOk(s, r);
    InstallSame(n, r);
    KeptSame(n, n0, r);
    InstallOutcome(n0, id, s0, r);
    SameNode(n0, n, InstallInTerm(n, r).node);
  }

  lemma UpRel(n: Node, id: int, s: P.State)
    requires ProcRel(Up(n), id, s)
    ensures NodeRel(n, id, s)
  {
  }

  lemma SameNode(n0: Node, n: Node, n': Node)
    requires n0.log == n.log && n0.meta == n.meta
    ensures LastIndex(n0) == LastIndex(n)
    ensures SameThrough(n0, n', LastIndex(n)) ==> SameThrough(n, n', LastIndex(n))
  {
    assert forall y :: EntryAt(n0, y) == EntryAt(n, y) && TermAt(n0, y) == TermAt(n, y);
    hide EntryAt, TermAt;
  }

  lemma InstallOutcome(n: Node, id: int, s: P.State, r: InstallReq)
    requires P.Inv(s) && NodeRel(n, id, s) && InstallReqRel(r, s) && r.term == n.term && NoSnapshotRunning(n)
    requires n.role == Follower && n.leader == r.leader && r.index > n.applied
    ensures var o := InstallInTerm(n, r);
      && (KeptSuffix(n, r).None? ==> n.commit < r.index && LastIndex(o.node) == r.index)
      && (KeptSuffix(n, r).Some? ==> LastIndex(o.node) == LastIndex(n) && SameThrough(n, o.node, LastIndex(n)))
      && o.reply == Some(InstallResp(n.term)) && o.node.commit == Max(n.commit, r.index) <= LastIndex(o.node)
      && o.node.store == r.data.kv && o.node.applied == r.index == o.node.meta.index
  {
    hide P.Inv, InstallReqRel, KeptSuffix, InstallInTerm, SameThrough, PhaseRel, RoleRel, CfgRel, Mirror, PerformAll, SnapRel,
      CutWrites, P.Certified, P.Anchored, Reconciled, Restorable, LastIndex;
    KeptIs(n, id, s, r);
    var s' := InstallNew(n, id, s, r);
    var h, h' := s.at[id].hist, s'.at[id].hist;
    InstalledHistory(n, id, s, r, h');
    ImageRestorable(s, r);
    LimitIs(n, id, s);
    InstallUnfolds(n, r, h'[r.index..]);
    MemberHistory(s, id);
    LastIs(n, h);
    var n' := InstallInTerm(n, r).node;
    LastIs(n', h');
    if KeptSuffix(n, r).Some? { HistoriesSame(n, n', h, h', |h|); }
  }

  // ----------------------------------------------------------------- restarts

  /** From any disk a run can leave, startup succeeds; crashing after any of
      its own writes and starting again ends in the same node. */
  lemma RestartSafety(run: seq<Cluster>, events: seq<Event>, limit: nat, i: nat, id: int, k: nat)
    requires IsRun(run, events, limit) && i < |run| && id in run[i].procs && run[i].procs[id].Down?
    requires k <= |Recover(run[i].procs[id].cfg, run[i].procs[id].disk).writes|
    ensures var cfg, d := run[i].procs[id].cfg, run[i].procs[id].disk;
      var first := Recover(cfg, d); var again := Recover(cfg, PerformAll(d, first.writes[..k]));
      first.Booted? && again.Booted? && again.node == first.node
  {
    hide IsRun, P.Inv, DiskRel, Recover, PerformAll, P.Certified, P.Anchored;
    var s := Reached(run, events, limit, i, id);
    MemberHistory(s, id);
    RecoveryIdempotent(run[i].procs[id].cfg, run[i].procs[id].disk, s.at[id], s.done, k);
  }

  // -------------------------------------------- applying an overtaken entry

  /** e has no effect left to make on s. */
  predicate AlreadyThere(e: LogEntry, s: Store) {
    if e.op == SET then e.key in s && s[e.key] == e.value
    else if e.op == DELETE then e.key !in s
    else true
  }

  lemma NoEffect(e: LogEntry, s: Store)
    ensures Apply(s, e) == s <==> AlreadyThere(e, s)
  {
    if e.op == SET {
      assert Apply(s, e)[e.key] == e.value;
      if e.key in s && s[e.key] == e.value { assert s[e.key := e.value] == s; }
    } else if e.op == DELETE {
      assert e.key !in Apply(s, e);
      if e.key !in s { assert s - {e.key} == s; }
    }
  }

  /** Between picking an entry and applying it an install may move the applied
      index past it. Applying it then leaves the store exact if and only if it
      is still the next entry, or its effect is already in the store. */
  lemma ApplyExactIff(run: seq<Cluster>, events: seq<Event>, limit: nat, i: nat, id: int) returns (committed: Log)
    requires IsRun(run, events, limit) && i < |run| && id in run[i].procs && run[i].procs[id].Up?
    requires run[i].procs[id].node.phase.Picked?
    ensures ClusterConforms(run[i], committed)
    ensures var n := run[i].procs[id].node; var e := n.phase.entry;
      && 0 < e.index <= n.applied + 1 && e.index <= n.commit <= |committed|
      && (RunEntry(n).node.store == Fold(committed[..Max(n.applied, e.index)])
          <==> e.index == n.applied + 1 || AlreadyThere(e, n.store))
  {
    hide IsRun, P.Inv, ClusterConforms, Fold, Apply, AlreadyThere;
    var s := Reached(run, events, limit, i, id);
    committed := s.done;
    RelConforms(run[i], s);
    var n := run[i].procs[id].node;
    var e := n.phase.entry;
    UpRel(n, id, s);
    Running(n, id, s);
    PickedFacts(n, id, s);
    NoEffect(e, n.store);
    if e.index == n.applied + 1 {
      AppliedIs(n, id, s, e.index);
      FoldStep(s.done, n.applied);
    }
  }

  lemma PickedFacts(n: Node, id: int, s: P.State)
    requires NodeRel(n, id, s) && n.phase.Picked?
    ensures var e := n.phase.entry;
      && n.applied <= n.commit <= |s.done| && 0 < e.index <= n.commit && e.index <= n.applied + 1
      && e == s.done[e.index - 1] && n.store == Fold(s.done[..n.applied])
  {
    hide CfgRel, RoleRel, Mirror, MemberRel, SnapRel, Fold;
  }

  // ------------------------------------------------------------ monotonicity

  /** No observable of a node goes back. */
  predicate NotBack(a: Node, b: Node) {
    a.term <= b.term && a.commit <= b.commit && a.applied <= b.applied && a.meta.index <= b.meta.index
  }

  /** No snapshot among the writes is older than the boundary. */
  predicate NoOlderSnapshot(ws: seq<Write>, index: nat) {
    forall w :: w in ws && w.SaveSnapshot? ==> index <= w.snap.index
  }

  lemma InstallKeepsTerm(n: Node, r: InstallReq)
    ensures var o := InstallInTerm(n, r);
      && o.node.term == n.term && o.node.role == Follower && o.node.leader == r.leader && o.node.votedFor == n.votedFor
      && o.node.cfg == n.cfg && o.node.phase == n.phase
      && (o.reply.Some? ==> o.reply.value.term == n.term && o.node.meta.index == if r.index <= n.applied then n.meta.index else r.index)
  {
    hide KeptSuffix, Restorable, PerformAll, Perform;
  }

  lemma InstallForward(n: Node, r: InstallReq)
    requires n.meta.index <= n.applied
    ensures var o := InstallInTerm(n, r);
      n.applied <= o.node.applied && n.meta.index <= o.node.meta.index && NoOlderSnapshot(o.writes, n.meta.index)
  {
    hide KeptSuffix, Restorable, PerformAll, Perform;
  }

  /** Forward from n, with no older snapshot written. */
  predicate Forward(n: Node, n': Node, ws: seq<Write>) {
    n.applied <= n'.applied && n.meta.index <= n'.meta.index && NoOlderSnapshot(ws, n.meta.index)
  }

  lemma BumpForward(n: Node, term: nat, leader: int)
    ensures var o := BecomeFollower(n, term, leader);
      o.node.applied == n.applied && o.node.meta == n.meta && forall w :: w in o.writes ==> !w.SaveSnapshot?
  {
    hide Perform;
  }

  lemma RequestForward(n: Node, req: AppendReq, inst: InstallReq)
    requires n.meta.index <= n.applied
    ensures Forward(n, HandleAppend(n, req).node, HandleAppend(n, req).writes)
    ensures Forward(n, HandleInstall(n, inst).node, HandleInstall(n, inst).writes)
  {
    hide AppendInTerm, InstallInTerm, BecomeFollower;
    BumpForward(n, req.term, req.leader);
    BumpForward(n, inst.term, inst.leader);
    AppendKeepsTerm(n, req);
    AppendKeepsTerm(BecomeFollower(n, req.term, req.leader).node, req);
    InstallForward(n, inst);
    InstallForward(BecomeFollower(n, inst.term, inst.leader).node, inst);
  }

  lemma VoteForward(n: Node, from: int, req: VoteReq, resp: VoteResp)
    ensures Forward(n, HandleVote(n, req).node, HandleVote(n, req).writes)
    ensures Forward(n, HandleVoteResp(n, from, req, resp).node, HandleVoteResp(n, from, req, resp).writes)
  {
    hide UpToDate, Perform, LastIndex, Uniform;
  }

  lemma AnswerForward(n: Node, from: int, req: AppendReq, resp: AppendResp, inst: InstallReq, done: InstallResp)
    ensures Forward(n, HandleAppendResp(n, from, req, resp).node, HandleAppendResp(n, from, req, resp).writes)
    ensures Forward(n, HandleInstallResp(n, from, inst, done).node, HandleInstallResp(n, from, inst, done).writes)
  {
    hide CommitPoint, Perform, LastIndex;
  }

  lemma MessageForward(n: Node, m: Msg)
    requires n.meta.index <= n.applied
    ensures Forward(n, OnMessage(n, m).node, OnMessage(n, m).writes)
  {
    hide HandleVote, HandleVoteResp, HandleAppend, HandleAppendResp, HandleInstall, HandleInstallResp, Forward;
    match m {
      case VoteAsk(_, req) => VoteForward(n, 0, req, VoteResp(0, false));
      case VoteAnswer(from, _, req, resp) => VoteForward(n, from, req, resp);
      case AppendAsk(_, req) => RequestForward(n, req, InstallReq(0, 0, 0, 0, NoBytes));
      case AppendAnswer(from, _, req, resp) => AnswerForward(n, from, req, resp, InstallReq(0, 0, 0, 0, NoBytes), InstallResp(0));
      case InstallAsk(_, req) => RequestForward(n, AppendReq(0, 0, 0, 0, [], 0), req);
      case InstallAnswer(from, _, req, resp) => AnswerForward(n, from, AppendReq(0, 0, 0, 0, [], 0), AppendResp(0, false), req, resp);
    }
  }

  lemma ReactForward(n: Node, i: Input)
    requires n.meta.index <= n.applied
    requires n.phase.Captured? || n.phase.Saved? ==> n.phase.index == n.applied
    ensures var o := React(n, i);
      n.applied <= o.node.applied && n.meta.index <= o.node.meta.index && NoOlderSnapshot(o.writes, n.meta.index)
  {
    hide OnMessage, CommitPoint, LastTermOf, EntryAt, TermAt, EntriesFrom, TryApply, ValidCommand, Asks, BuildAppend, BuildInstall, Perform, LastIndex;
    if i.Receive? { MessageForward(n, i.msg); }
  }

  lemma {:induction false} SnapshotForward(d: Disk, ws: seq<Write>, index: nat)
    requires NoOlderSnapshot(ws, index) && index <= BoundaryOf(d.snap).index
    ensures index <= BoundaryOf(PerformAll(d, ws).snap).index
    decreases |ws|
  {
    if ws != [] {
      assert ws[0] in ws;
      SnapshotForward(Perform(d, ws[0]), ws[1..], index);
    }
  }

  lemma StepForward(c: Cluster, e: Event, c': Cluster, s: P.State, s': P.State, id: int)
    requires Rel(c, s) && Rel(c', s') && Later(s, s') && Next(c, e, c') && id in c.procs
    ensures id in c'.procs && Viewable(c.procs[id]) && Viewable(c'.procs[id])
    ensures NotBack(View(c.procs[id]), View(c'.procs[id]))
  {
    hide Rel, Later, React, Recover, PerformAll, Enabled;
    KeysStay(c, e, c', s, s');
    ViewFacts(c, s, id);
    ViewFacts(c', s', id);
    LaterAt(s, s', id);
    Ordered(c, s, id);
    Ordered(c', s', id);
    var p, p' := c.procs[id], c'.procs[id];
    if p != p' {
      assert e.id == id;
      match e {
        case Run(_, i) => ReactForward(p.node, i);
        case Load(_) =>
        case Crash(_, i, k) =>
          ReactForward(p.node, i);
          SnapshotForward(p.node.disk, React(p.node, i).writes[..k], p.node.meta.index);
          RecoveredAt(c', s', id);
        case Start(_) =>
        case StartCrash(_, k) =>
          StartCrashSame(c, s, id, k);
      }
    }
  }

  lemma KeysStay(c: Cluster, e: Event, c': Cluster, s: P.State, s': P.State)
    requires Rel(c, s) && Rel(c', s') && Later(s, s')
    ensures c'.procs.Keys == c.procs.Keys == s.at.Keys
  {
    hide P.Inv, NetRel, ProcRel;
  }

  lemma LaterAt(s: P.State, s': P.State, id: int)
    requires Later(s, s') && id in s.at
    ensures id in s'.at && s.at[id].term <= s'.at[id].term && s.at[id].commit <= s'.at[id].commit
  {
  }

  lemma Ordered(c: Cluster, s: P.State, id: int)
    requires Rel(c, s) && id in c.procs
    ensures Viewable(c.procs[id])
    ensures var n := View(c.procs[id]);
      && n.meta.index <= n.applied <= n.commit
      && (n.phase.Captured? || n.phase.Saved? ==> n.phase.index == n.applied)
      && n.meta.index <= BoundaryOf(n.disk.snap).index
  {
    hide P.Inv, NetRel, DiskRel, Recover;
    assert ProcRel(c.procs[id], id, s);
    ViewRel(c.procs[id], id, s);
    hide RoleRel, CfgRel, SnapRel, Fold;
  }

  lemma RecoveredAt(c: Cluster, s: P.State, id: int)
    requires Rel(c, s) && id in c.procs && c.procs[id].Down?
    ensures Viewable(c.procs[id])
    ensures var n := View(c.procs[id]); n.meta == BoundaryOf(c.procs[id].disk.snap) && n.applied == n.commit
  {
    hide P.Inv, NetRel, DiskRel, Recover, P.Certified, P.Anchored;
    assert ProcRel(c.procs[id], id, s);
    MemberHistory(s, id);
    Recovers(c.procs[id].cfg, c.procs[id].disk, s.at[id], s.done);
  }

  lemma StartCrashSame(c: Cluster, s: P.State, id: int, k: nat)
    requires Rel(c, s) && id in c.procs && c.procs[id].Down?
    requires k <= |Recover(c.procs[id].cfg, c.procs[id].disk).writes|
    ensures var cfg, d := c.procs[id].cfg, c.procs[id].disk;
      var again := Recover(cfg, PerformAll(d, Recover(cfg, d).writes[..k]));
      again.Booted? && Recover(cfg, d).Booted? && again.node == Recover(cfg, d).node
  {
    hide P.Inv, NetRel, DiskRel, Recover, PerformAll, P.Certified, P.Anchored;
    assert ProcRel(c.procs[id], id, s);
    MemberHistory(s, id);
    RecoveryIdempotent(c.procs[id].cfg, c.procs[id].disk, s.at[id], s.done, k);
  }

  /** Along a run, through crashes and restarts, no node's term, commit index,
      applied index or snapshot boundary goes back. */
  lemma {:induction false} Monotone(run: seq<Cluster>, events: seq<Event>, limit: nat, i: nat, j: nat, id: int)
    requires IsRun(run, events, limit) && i <= j < |run| && id in run[i].procs
    ensures id in run[j].procs && Viewable(run[i].procs[id]) && Viewable(run[j].procs[id])
    ensures NotBack(View(run[i].procs[id]), View(run[j].procs[id]))
    decreases j - i
  {
    hide Rel, Later, Next, Init, Recover;
    var states := RunRefines(run, events, limit);
    ViewFacts(run[i], states[i], id);
    if i < j {
      assert Later(states[i], states[i + 1]);
      StepForward(run[i], events[i], run[i + 1], states[i], states[i + 1], id);
      Monotone(run, events, limit, i + 1, j, id);
    }
  }
}
