/** InstallSnapshot refines the protocol, also when a crash interrupts it:
    sending, installing over a matching or a conflicting log, acknowledging. */
module Snapshots {
  import opened Entries
  import opened KvStore
  import opened Disk
  import opened Node
  import opened Relation
  import opened Elections
  import opened Replication
  import P = Protocol
  import S = ProtocolSteps
  import K = ProtocolKeeps
  import L = ProtocolLogs

  /** A snapshot request carries the image of a committed prefix of its leader's log. */
  ghost predicate InstallReqRel(r: InstallReq, s: P.State) {
    && r.term in s.lead
    && var l := s.lead[r.term];
    && r.index <= |l| && l[..r.index] <= s.done
    && P.Certified(s, l[..r.index], r.term)
    && r.lastTerm == TermIn(l, r.index)
    && r.data == Image(Fold(l[..r.index]))
  }

  ghost predicate InstallRespRel(from: int, r: InstallReq, resp: InstallResp, s: P.State) {
    resp.term == r.term ==> P.Acked(s, r.term, from, r.index)
  }

  lemma InstallReqGrows(r: InstallReq, s: P.State, s': P.State)
    requires InstallReqRel(r, s) && P.Grows(s, s')
    ensures InstallReqRel(r, s')
  {
    hide P.Certified, Fold;
    var l, l' := s.lead[r.term], s'.lead[r.term];
    assert l <= l';
    TermInPrefix(l, l', r.index);
    S.CertifiedGrows(s, s', l[..r.index], r.term, r.term);
  }

  lemma CertifiedPrefix(s: P.State, log: Log, k: nat, bound: nat)
    requires P.Certified(s, log, bound) && k <= |log|
    ensures P.Certified(s, log[..k], bound)
  {
    if k != 0 {
      var t: nat, c: nat :| t <= bound && P.Chosen(s, t, c) && |log| <= c && log <= s.lead[t];
      assert log[..k] <= s.lead[t];
    }
  }

  /** Every snapshot a leader sends is the image of its committed prefix. */
  lemma BuiltInstall(n: Node, id: int, s: P.State, peer: int, stored: Snapshot)
    requires P.Inv(s) && NodeRel(n, id, s) && SnapRel(stored, s.done)
    ensures var r := BuildInstall(n, peer, Some(stored)); r.Some? ==> InstallReqRel(r.value, s)
  {
    hide P.Inv, PhaseRel, CfgRel, Mirror, RoleRel, P.Certified, P.Anchored, Fold;
    if BuildInstall(n, peer, Some(stored)).Some? {
      MemberHistory(s, id);
      LeaderLog(s, id);
      var m := s.at[id];
      assert m.hist[..n.meta.index] == m.hist[..n.commit][..n.meta.index] == s.done[..n.meta.index];
      CertifiedPrefix(s, m.hist[..n.commit], n.meta.index, n.term);
    }
  }

  // -------------------------------------------------------- installing

  /** Where two logs part, up to a bound. */
  lemma {:induction false} Parting(h: Log, l: Log, bound: nat) returns (j: nat)
    requires bound <= |l|
    ensures j <= bound && j <= |h| && h[..j] == l[..j]
    ensures j == bound || j == |h| || h[j] != l[j]
    decreases bound
  {
    if bound == 0 {
      j := 0;
    } else {
      j := Parting(h, l, bound - 1);
      if j == bound - 1 && j < |h| && h[j] == l[j] {
        assert h[..j + 1] == h[..j] + [h[j]] == l[..j + 1];
        j := j + 1;
      }
    }
  }

  /** Whether the local suffix is kept, told on full histories. When it is not,
      the local commit index is below the snapshot, so nothing committed is lost. */
  lemma KeptIs(n: Node, id: int, s: P.State, r: InstallReq)
    requires P.Inv(s) && NodeRel(n, id, s) && InstallReqRel(r, s) && r.index > n.applied
    ensures var h, l := s.at[id].hist, s.lead[r.term];
      KeptSuffix(n, r) == if r.index <= |h| && h[..r.index] == l[..r.index] then Some(h[r.index..]) else None
    ensures KeptSuffix(n, r).None? ==>
      n.commit < r.index && (r.index <= |s.at[id].hist| ==> TermIn(s.at[id].hist, r.index) != r.lastTerm)
  {
    hide P.Inv, PhaseRel, CfgRel, Mirror, RoleRel, P.Certified, P.Anchored, Fold, TermAt, EntriesFrom;
    MemberHistory(s, id);
    LeadLog(s, r.term);
    var h, l := s.at[id].hist, s.lead[r.term];
    TermIs(n, h, r.index);
    EntriesAre(n, h, r.index + 1);
    if r.index <= |h| && h[r.index - 1].term == l[r.index - 1].term {
      S.Matching(s, h, l, r.index);
    }
    if r.index <= |h| && h[..r.index] == l[..r.index] {
      assert h[r.index - 1] == h[..r.index][r.index - 1] == l[r.index - 1];
    }
    if r.index <= n.commit {
      assert h[..r.index] == h[..n.commit][..r.index] == s.done[..r.index] == l[..r.index];
    }
  }

  /** The protocol steps behind an install: the log first, then acknowledging and committing. */
  lemma InstallLog(n: Node, id: int, s: P.State, r: InstallReq) returns (s': P.State)
    requires P.Inv(s) && NodeRel(n, id, s) && n.role == Follower && InstallReqRel(r, s) && r.term == n.term
    requires r.index > n.applied
    ensures Moves(s, s', id) && s'.lead == s.lead
    ensures s'.at[id] == s.at[id].(hist := if KeptSuffix(n, r).Some? then s.at[id].hist else s.lead[r.term][..r.index])
    ensures s.lead[r.term][..r.index] <= s'.at[id].hist
  {
    hide P.Inv, PhaseRel, CfgRel, Mirror, RoleRel, P.Certified, Fold, KeptSuffix;
    KeptIs(n, id, s, r);
    var h, l := s.at[id].hist, s.lead[r.term];
    s' := s;
    if KeptSuffix(n, r).None? {
      var j := Parting(h, l, r.index);
      L.AdoptKeeps(s, id, j, r.index);
      s' := S.Adopt(s, id, j, r.index);
    }
  }

  lemma AckAndCommit(id: int, s: P.State, k: nat) returns (s': P.State)
    requires P.Inv(s) && S.CanAck(s, id, k) && P.Certified(s, s.lead[s.at[id].term][..k], s.at[id].term)
    ensures Moves(s, s', id) && P.Acked(s', s.at[id].term, id, k) && s'.lead == s.lead
    ensures s'.at[id] == s.at[id].(commit := Max(s.at[id].commit, k))
  {
    hide P.Inv, P.Certified;
    K.AckKeeps(s, id, k);
    s' := S.Ack(s, id, k);
    if s.at[id].commit < k {
      var s1 := s';
      var log := s.lead[s.at[id].term][..k];
      assert s1.at[id].hist[..k] == log;
      S.CertifiedGrows(s, s1, log, s.at[id].term, s.at[id].term);
      K.CommitKeeps(s1, id, k);
      s' := S.Commit(s1, id, k);
      MovesTwice(s, s1, s', id);
    }
  }

  lemma InstallMoves(n: Node, id: int, s: P.State, r: InstallReq) returns (s': P.State)
    requires P.Inv(s) && NodeRel(n, id, s) && n.role == Follower && InstallReqRel(r, s) && r.term == n.term
    requires r.index > n.applied
    ensures Moves(s, s', id) && P.Acked(s', r.term, id, r.index)
    ensures s'.at[id] == s.at[id].(commit := Max(n.commit, r.index),
                                   hist := if KeptSuffix(n, r).Some? then s.at[id].hist else s.lead[r.term][..r.index])
    ensures s.lead[r.term][..r.index] <= s'.at[id].hist
  {
    hide P.Inv, PhaseRel, CfgRel, Mirror, RoleRel, P.Certified, Fold, KeptSuffix;
    var s1 := InstallLog(n, id, s, r);
    S.CertifiedGrows(s, s1, s.lead[r.term][..r.index], r.term, r.term);
    s' := AckAndCommit(id, s1, r.index);
    MovesTwice(s, s1, s', id);
  }

  // ------------------------------------------- the disk during an install

  /** The writes of an install that goes through, and the node it leaves. */
  function CutWrites(n: Node, r: InstallReq): seq<Write> {
    if KeptSuffix(n, r).Some? then [CompactLog(r.index)]
    else if |n.log| > 0 then [CutLog(n.meta.index + 1)] else []
  }

  lemma CompactDisk(n: Node, h: Log, index: nat)
    requires SuffixOf(n.log, n.meta, h) && Indexed(h) && n.disk.log == n.log && n.meta.index < index <= |h|
    ensures PerformAll(n.disk, [CompactLog(index)]) == n.disk.(log := h[index..])
  {
    CompactSuffix(h, n.meta.index, index);
    PerformOne(n.disk, CompactLog(index));
  }

  lemma ClearDisk(n: Node, h: Log)
    requires SuffixOf(n.log, n.meta, h) && Indexed(h) && n.disk.log == n.log
    ensures PerformAll(n.disk, if |n.log| > 0 then [CutLog(n.meta.index + 1)] else []) == n.disk.(log := [])
  {
    if |n.log| > 0 {
      CutSuffix(h, n.meta.index, n.meta.index + 1);
      assert h[..n.meta.index][n.meta.index..] == [];
      PerformOne(n.disk, CutLog(n.meta.index + 1));
    }
  }

  /** The history after an install fits its boundary. */
  lemma InstalledHistory(n: Node, id: int, s: P.State, r: InstallReq, h': Log)
    requires P.Inv(s) && NodeRel(n, id, s) && InstallReqRel(r, s) && r.index > n.applied
    requires h' == if KeptSuffix(n, r).Some? then s.at[id].hist else s.lead[r.term][..r.index]
    ensures r.index <= |h'| && Indexed(h') && AllFit(h', s.limit) && TermIn(h', r.index) == r.lastTerm
    ensures h'[..r.index] == s.lead[r.term][..r.index]
    ensures KeptSuffix(n, r) == if KeptSuffix(n, r).Some? then Some(h'[r.index..]) else None
    ensures KeptSuffix(n, r).None? ==> h'[r.index..] == []
  {
    hide P.Inv, PhaseRel, CfgRel, RoleRel, P.Certified, P.Anchored, Fold, KeptSuffix, Mirror;
    KeptIs(n, id, s, r);
    MemberHistory(s, id);
    LeadLog(s, r.term);
    var h, l := s.at[id].hist, s.lead[r.term];
    if KeptSuffix(n, r).Some? {
      assert h[r.index - 1] == h[..r.index][r.index - 1] == l[r.index - 1];
    } else {
      assert l[..r.index][..r.index] == l[..r.index];
    }
  }

  /** Before and after its log is cut, the disk reconciles to that history. */
  lemma CutDisks(n: Node, id: int, s: P.State, r: InstallReq, h': Log)
    requires P.Inv(s) && NodeRel(n, id, s) && InstallReqRel(r, s) && r.index > n.applied
    requires h' == if KeptSuffix(n, r).Some? then s.at[id].hist else s.lead[r.term][..r.index]
    ensures r.index <= |h'| && Reconciled(n.disk.log, Boundary(r.index, r.lastTerm)) == Some(h'[r.index..])
    ensures Loadable(n.disk.log)
    ensures PerformAll(n.disk, CutWrites(n, r)) == n.disk.(log := h'[r.index..])
  {
    hide P.Inv, PhaseRel, CfgRel, RoleRel, P.Certified, P.Anchored, Fold, KeptSuffix, Reconciled, PerformAll, Loadable;
    KeptIs(n, id, s, r);
    InstalledHistory(n, id, s, r, h');
    MemberHistory(s, id);
    var h, b := s.at[id].hist, Boundary(r.index, r.lastTerm);
    SuffixLoadable(h, n.meta.index, s.limit);
    if KeptSuffix(n, r).Some? {
      ReconcileSuffix(h, n.meta.index, b);
      CompactDisk(n, h, r.index);
    } else {
      ReconcileStale(h, n.meta.index, b);
      ClearDisk(n, h);
    }
  }

  lemma DiskStable(n: Node, id: int, s: P.State)
    requires NodeRel(n, id, s)
    ensures n.disk.stable == StableOf(n) && StableOk(n.disk.stable)
  {
    hide PhaseRel, CfgRel, RoleRel, SnapRel;
  }

  lemma StageRel(d: Disk, m: P.Member, done: Log, snap: Snapshot)
    requires d.snap == Some(snap) && SnapRel(snap, done) && Loadable(d.log)
    requires StableOk(d.stable) && d.stable.term == m.term && d.stable.votedFor == m.vote
    requires Max(d.stable.commit, snap.index) == m.commit
    requires snap.index <= |m.hist| && Reconciled(d.log, Boundary(snap.index, snap.term)) == Some(m.hist[snap.index..])
    ensures DiskRel(d, m, done)
  {
    hide Reconciled, Loadable, SnapRel;
  }

  /** Each stage of the disk stands for the same member: snapshot saved, log
      cut, stable state saved. */
  lemma InstallDisks(n: Node, id: int, s: P.State, r: InstallReq, m: P.Member, done: Log)
    requires P.Inv(s) && NodeRel(n, id, s) && InstallReqRel(r, s) && r.index > n.applied
    requires m.hist == if KeptSuffix(n, r).Some? then s.at[id].hist else s.lead[r.term][..r.index]
    requires m.term == n.term && m.vote == n.votedFor && m.commit == Max(n.commit, r.index) && s.done <= done
    requires r.index <= |m.hist|
    ensures var d1 := n.disk.(snap := Some(Snapshot(r.index, r.lastTerm, r.data)));
      var d2 := d1.(log := m.hist[r.index..]);
      DiskRel(d1, m, done) && DiskRel(d2, m, done)
  {
    hide P.Inv, NodeRel, KeptSuffix, Reconciled, PerformAll, Loadable, DiskRel, SnapRel, InstallReqRel, Indexed, AllFit, TermIn;
    DiskStable(n, id, s);
    var snap := Snapshot(r.index, r.lastTerm, r.data);
    CutDisks(n, id, s, r, m.hist);
    InstalledHistory(n, id, s, r, m.hist);
    InstallImage(s, r);
    SnapRelGrows(snap, s.done, done);
    var d1 := n.disk.(snap := Some(snap));
    StageRel(d1, m, done, snap);
    ReconcileSuffix(m.hist, r.index, Boundary(r.index, r.lastTerm));
    SuffixLoadable(m.hist, r.index, s.limit);
    StageRel(d1.(log := m.hist[r.index..]), m, done, snap);
  }

  lemma InstallImage(s: P.State, r: InstallReq)
    requires InstallReqRel(r, s)
    ensures SnapRel(Snapshot(r.index, r.lastTerm, r.data), s.done)
  {
    hide P.Certified, Fold;
    var l := s.lead[r.term];
    assert l[..r.index] == s.done[..r.index];
  }

  /** The node an install leaves, and its writes. */
  lemma InstallUnfolds(n: Node, r: InstallReq, rest: Log)
    requires n.role == Follower && n.leader == r.leader && r.index > n.applied && n.applied <= n.commit
    requires r.data.Image? && Restorable(r.data, n.cfg.limit) && NO_VOTE <= n.votedFor
    requires PerformAll(n.disk, CutWrites(n, r)) == n.disk.(log := rest)
    requires rest == if KeptSuffix(n, r).Some? then KeptSuffix(n, r).value else []
    ensures var snap := Snapshot(r.index, r.lastTerm, r.data);
      var st := Stable(n.term, n.votedFor, Max(n.commit, r.index), r.index);
      InstallInTerm(n, r) == Outcome(
        n.(log := rest, meta := Boundary(r.index, r.lastTerm), commit := st.commit, applied := r.index,
           store := r.data.kv, disk := Disk(st, rest, Some(snap))),
        [SaveSnapshot(snap)] + CutWrites(n, r) + [SaveStable(st)], Some(InstallResp(n.term)))
  {
    hide KeptSuffix, Restorable, Compact, Cut;
    var snap := Snapshot(r.index, r.lastTerm, r.data);
    assert n.(role := Follower, leader := r.leader) == n;
    CutCommutes(n.disk, snap, CutWrites(n, r));
  }

  /** Saving the snapshot first does not change what cutting the log does. */
  lemma CutCommutes(d: Disk, snap: Snapshot, cw: seq<Write>)
    requires cw == [] || (|cw| == 1 && (cw[0].CompactLog? || cw[0].CutLog?))
    ensures PerformAll(d, [SaveSnapshot(snap)] + cw) == PerformAll(d, cw).(snap := Some(snap))
    ensures PerformAll(d, [SaveSnapshot(snap)]) == d.(snap := Some(snap))
  {
    hide Compact, Cut;
    PerformConcat(d, [SaveSnapshot(snap)], cw);
    PerformOne(d, SaveSnapshot(snap));
    if cw != [] {
      assert cw == [cw[0]];
      PerformOne(d, cw[0]);
      PerformOne(d.(snap := Some(snap)), cw[0]);
    }
  }

  predicate NoSnapshotRunning(n: Node) {
    !n.phase.Captured? && !n.phase.Saved?
  }

  /** The installed image is the fold of the new applied prefix, whatever the
      apply loop had picked before. */
  lemma InstalledPhase(n: Node, n': Node, done: Log, done': Log, snap: Snapshot)
    requires PhaseRel(n, done) && done <= done' && NoSnapshotRunning(n) && snap.index > n.applied
    requires SnapRel(snap, done) && n'.phase == n.phase && n'.store == snap.data.kv
    requires n'.applied == snap.index <= n'.commit <= |done'| && n.commit <= n'.commit
    ensures PhaseRel(n', done')
  {
    hide Fold;
    SnapRelGrows(snap, done, done');
  }

  lemma InstalledNode(n: Node, id: int, s: P.State, s': P.State, r: InstallReq, n': Node)
    requires NodeRel(n, id, s) && P.Grows(s, s') && n.role == Follower && NoSnapshotRunning(n)
    requires id in s'.at && HistoryOk(s'.at[id].hist, s'.at[id].commit, s'.done, s'.limit)
    requires SnapRel(Snapshot(r.index, r.lastTerm, r.data), s.done) && r.index > n.applied
    requires s'.at[id] == s.at[id].(commit := Max(n.commit, r.index), hist := s'.at[id].hist)
    requires r.index <= |s'.at[id].hist| && TermIn(s'.at[id].hist, r.index) == r.lastTerm
    requires var rest := s'.at[id].hist[r.index..];
      n' == n.(log := rest, meta := Boundary(r.index, r.lastTerm), commit := Max(n.commit, r.index), applied := r.index,
               store := r.data.kv, disk := Disk(Stable(n.term, n.votedFor, Max(n.commit, r.index), r.index), rest,
                                                Some(Snapshot(r.index, r.lastTerm, r.data))))
    ensures NodeRel(n', id, s')
  {
    hide Fold, Indexed, AllFit;
    var snap := Snapshot(r.index, r.lastTerm, r.data);
    SnapRelGrows(snap, s.done, s'.done);
    assert PhaseRel(n', s'.done) by {
      hide CfgRel, MemberRel, RoleRel, Mirror;
      InstalledPhase(n, n', s.done, s'.done, snap);
    }
    hide PhaseRel;
  }

  lemma ImageRestorable(s: P.State, r: InstallReq)
    requires P.Inv(s) && InstallReqRel(r, s)
    ensures Restorable(r.data, s.limit) && r.data.Image?
  {
    hide P.Inv, P.Certified;
    LeadLog(s, r.term);
    FoldRestorable(s.lead[r.term][..r.index], s.limit);
  }

  lemma InstallNew(n: Node, id: int, s: P.State, r: InstallReq) returns (s': P.State)
    requires P.Inv(s) && NodeRel(n, id, s) && InstallReqRel(r, s) && r.term == n.term && NoSnapshotRunning(n)
    requires n.role == Follower && n.leader == r.leader && r.index > n.applied
    ensures Moves(s, s', id) && P.Acked(s', r.term, id, r.index)
    ensures var o := InstallInTerm(n, r); var h := s'.at[id].hist;
      var st := Stable(n.term, n.votedFor, Max(n.commit, r.index), r.index);
      && NodeRel(o.node, id, s') && o.reply == Some(InstallResp(n.term))
      && o.writes == [SaveSnapshot(Snapshot(r.index, r.lastTerm, r.data))] + CutWrites(n, r) + [SaveStable(st)]
      && r.index <= |h| && PerformAll(n.disk, CutWrites(n, r)) == n.disk.(log := h[r.index..])
      && h == (if KeptSuffix(n, r).Some? then s.at[id].hist else s.lead[r.term][..r.index])
      && s'.at[id].term == n.term && s'.at[id].vote == n.votedFor && s'.at[id].commit == Max(n.commit, r.index)
  {
    hide P.Inv, NodeRel, InstallReqRel, KeptSuffix, PerformAll, InstallInTerm, Restorable, SnapRel, Reconciled, CutWrites, Indexed, AllFit, TermIn;
    NodeBasics(n, id, s);
    s' := InstallMoves(n, id, s, r);
    var h := s'.at[id].hist;
    InstalledHistory(n, id, s, r, h);
    CutDisks(n, id, s, r, h);
    ImageRestorable(s, r);
    InstallUnfolds(n, r, h[r.index..]);
    InstallImage(s, r);
    MemberHistory(s', id);
    InstalledNode(n, id, s, s', r, InstallInTerm(n, r).node);
  }

  lemma NodeBasics(n: Node, id: int, s: P.State)
    requires NodeRel(n, id, s)
    ensures id in s.at && n.applied <= n.commit && NO_VOTE <= n.votedFor && n.cfg.limit == s.limit
    ensures n.term == s.at[id].term && n.votedFor == s.at[id].vote && n.commit == s.at[id].commit && n.role == s.at[id].role
  {
    hide PhaseRel, RoleRel, SnapRel;
  }

  /** A node that already applied the boundary acknowledges without installing. */
  lemma InstallOld(n: Node, id: int, s: P.State, r: InstallReq) returns (s': P.State)
    requires P.Inv(s) && NodeRel(n, id, s) && InstallReqRel(r, s) && r.term == n.term && r.index <= n.applied
    ensures Moves(s, s', id) && NodeRel(n, id, s') && P.Acked(s', r.term, id, r.index)
  {
    hide P.Inv, PhaseRel, CfgRel, RoleRel, Mirror, P.Certified, P.Anchored, Fold;
    MemberHistory(s, id);
    var h, l := s.at[id].hist, s.lead[r.term];
    assert h[..r.index] == h[..n.commit][..r.index] == s.done[..r.index] == l[..r.index];
    s' := Acknowledged(n, id, s, r.index);
  }

  lemma InstallHandled(n: Node, id: int, s: P.State, r: InstallReq) returns (s': P.State)
    requires P.Inv(s) && NodeRel(n, id, s) && InstallReqRel(r, s) && r.term == n.term && NoSnapshotRunning(n)
    ensures var o := InstallInTerm(n, r);
      Moves(s, s', id) && NodeRel(o.node, id, s') && o.reply == Some(InstallResp(n.term))
    ensures P.Acked(s', r.term, id, r.index)
  {
    hide P.Inv, NodeRel, InstallReqRel, P.Certified, InstallInTerm;
    var s0 := FollowSameTerm(n, id, s, r.leader);
    var n0 := n.(role := Follower, leader := r.leader);
    InstallReqGrows(r, s, s0);
    ImageOk(s, r);
    InstallSame(n, r);
    if r.index <= n.applied {
      s' := InstallOld(n0, id, s0, r);
    } else {
      s' := InstallNew(n0, id, s0, r);
    }
    MovesTwice(s, s0, s', id);
  }

  lemma ImageOk(s: P.State, r: InstallReq)
    requires InstallReqRel(r, s)
    ensures SnapshotOk(Snapshot(r.index, r.lastTerm, r.data))
  {
  }

  lemma InstallSame(n: Node, r: InstallReq)
    requires SnapshotOk(Snapshot(r.index, r.lastTerm, r.data))
    ensures var n0 := n.(role := Follower, leader := r.leader);
      InstallInTerm(n0, r) == InstallInTerm(n, r)
      && (r.index <= n.applied ==> InstallInTerm(n, r) == Outcome(n0, [], Some(InstallResp(n.term))))
  {
    hide KeptSuffix, Restorable, PerformAll;
  }

  /** The disk after the first k writes of an install. */
  lemma InstallCrashed(n: Node, id: int, s: P.State, r: InstallReq, k: nat) returns (s': P.State)
    requires P.Inv(s) && NodeRel(n, id, s) && InstallReqRel(r, s) && r.term == n.term && NoSnapshotRunning(n)
    requires k <= |InstallInTerm(n, r).writes|
    ensures Moves(s, s', id) && DiskRel(PerformAll(n.disk, InstallInTerm(n, r).writes[..k]), s'.at[id], s'.done)
  {
    hide P.Inv, NodeRel, DiskRel, InstallReqRel, P.Certified, InstallInTerm, PerformAll;
    var ws := InstallInTerm(n, r).writes;
    if k == 0 {
      s' := s;
      Nothing(n.disk, ws);
      MirrorDisk(n, id, s);
    } else {
      var s0 := FollowSameTerm(n, id, s, r.leader);
      var n0 := n.(role := Follower, leader := r.leader);
      InstallReqGrows(r, s, s0);
      ImageOk(s, r);
      InstallSame(n, r);
      s' := InstallTorn(n0, id, s0, r, k);
      MovesTwice(s, s0, s', id);
    }
  }

  lemma InstallTorn(n: Node, id: int, s: P.State, r: InstallReq, k: nat) returns (s': P.State)
    requires P.Inv(s) && NodeRel(n, id, s) && InstallReqRel(r, s) && r.term == n.term && NoSnapshotRunning(n)
    requires n.role == Follower && n.leader == r.leader && r.index > n.applied
    requires 0 < k <= |InstallInTerm(n, r).writes|
    ensures Moves(s, s', id) && DiskRel(PerformAll(n.disk, InstallInTerm(n, r).writes[..k]), s'.at[id], s'.done)
  {
    hide P.Inv, NodeRel, DiskRel, InstallReqRel, KeptSuffix, InstallInTerm, PerformAll, P.Certified, SnapRel;
    NodeBasics(n, id, s);
    s' := InstallNew(n, id, s, r);
    var snap, cw, h := Snapshot(r.index, r.lastTerm, r.data), CutWrites(n, r), s'.at[id].hist;
    var st := Stable(n.term, n.votedFor, Max(n.commit, r.index), r.index);
    InstallDisks(n, id, s, r, s'.at[id], s'.done);
    CutCommutes(n.disk, snap, cw);
    var ws := InstallInTerm(n, r).writes;
    if k == |ws| {
      MirrorDisk(InstallInTerm(n, r).node, id, s');
      assert ws[..k] == ws;
      PerformConcat(n.disk, [SaveSnapshot(snap)] + cw, [SaveStable(st)]);
      PerformOne(n.disk.(snap := Some(snap), log := h[r.index..]), SaveStable(st));
      InstallDiskIs(n, r);
    } else if k == 1 {
      assert ws[..k] == [SaveSnapshot(snap)];
    } else {
      assert ws[..k] == [SaveSnapshot(snap)] + cw;
    }
  }

  lemma InstallDiskIs(n: Node, r: InstallReq)
    ensures InstallInTerm(n, r).node.disk == PerformAll(n.disk, InstallInTerm(n, r).writes)
  {
    hide KeptSuffix, Restorable, Perform, PerformAll, FinishInstall;
    Nothing(n.disk, []);
    var n0 := n.(role := Follower, leader := r.leader);
    var ws := [SaveSnapshot(Snapshot(r.index, r.lastTerm, r.data))] + CutWrites(n0, r);
    var n1 := n0.(disk := PerformAll(n.disk, ws));
    FinishDisk(n1, r, KeptSuffix(n0, r));
    PerformConcat(n.disk, ws, FinishInstall(n1, r, KeptSuffix(n0, r)).writes);
    Nothing(n1.disk, []);
  }

  lemma FinishDisk(n: Node, r: InstallReq, kept: Option<Log>)
    ensures var o := FinishInstall(n, r, kept); o.node.disk == PerformAll(n.disk, o.writes)
  {
    hide Restorable, Perform;
    PerformOne(n.disk, SaveStable(Stable(n.term, n.votedFor, Max(n.commit, r.index), Max(n.applied, r.index))));
  }

  lemma InstallAnswered(n: Node, id: int, s: P.State, peer: int, r: InstallReq, resp: InstallResp) returns (s': P.State)
    requires P.Inv(s) && NodeRel(n, id, s) && InstallRespRel(peer, r, resp, s)
    ensures var o := HandleInstallResp(n, peer, r, resp);
      Moves(s, s', id) && NodeRel(o.node, id, s') && |o.writes| <= 1
  {
    hide P.Inv, PhaseRel, CfgRel, SnapRel;
    if resp.term > n.term {
      s' := FollowNewTerm(n, id, s, resp.term, UNKNOWN_LEADER);
    } else {
      s' := s;
      assert PhaseSame(n, HandleInstallResp(n, peer, r, resp).node);
      PhaseFrame(n, HandleInstallResp(n, peer, r, resp).node, s.done);
    }
  }

  predicate PhaseSame(n: Node, n': Node) {
    n'.phase == n.phase && n'.store == n.store && n'.applied == n.applied && n'.commit == n.commit
  }

  lemma PhaseFrame(n: Node, n': Node, done: Log)
    requires PhaseRel(n, done) && PhaseSame(n, n')
    ensures PhaseRel(n', done)
  {
  }
}
