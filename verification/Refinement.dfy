/** Every event of the cluster refines the protocol. */
module Refinement {
  import opened Entries
  import opened KvStore
  import opened Disk
  import opened Node
  import opened Relation
  import opened Elections
  import opened Replication
  import opened Snapshots
  import opened ApplyLoop
  import opened Startup
  import opened Cluster
  import P = Protocol
  import S = ProtocolSteps
  import K = ProtocolKeeps

  ghost predicate MsgRel(m: Msg, s: P.State) {
    match m
    case VoteAsk(_, req) => VoteReqRel(req, s)
    case VoteAnswer(from, to, req, resp) => VoteReqRel(req, s) && VoteRespRel(from, req, resp, s) && to == req.candidate
    case AppendAsk(_, req) => AppendReqRel(req, s)
    case AppendAnswer(from, _, req, resp) => AppendRespRel(from, req, resp, s)
    case InstallAsk(_, req) => InstallReqRel(req, s)
    case InstallAnswer(from, _, req, resp) => InstallRespRel(from, req, resp, s)
  }

  ghost predicate ProcRel(p: Proc, id: int, s: P.State) {
    match p
    case Up(n) => NodeRel(n, id, s)
    case Down(cfg, d) => id in s.at && s.at[id].role == Follower && CfgRel(cfg, id, s) && DiskRel(d, s.at[id], s.done)
  }

  ghost predicate NetRel(c: Cluster, s: P.State) {
    && (forall m :: m in c.net ==> MsgRel(m, s))
    && (forall x :: x in c.loaded ==> SnapRel(x.1, s.done))
  }

  ghost predicate Rel(c: Cluster, s: P.State) {
    && P.Inv(s) && c.procs.Keys == s.at.Keys && NetRel(c, s)
    && forall id :: id in c.procs ==> ProcRel(c.procs[id], id, s)
  }

  lemma MsgRelGrows(m: Msg, s: P.State, s': P.State)
    requires MsgRel(m, s) && P.Grows(s, s')
    ensures MsgRel(m, s')
  {
    hide AppendReqRel, InstallReqRel;
    match m {
      case AppendAsk(_, req) => AppendReqGrows(req, s, s');
      case InstallAsk(_, req) => InstallReqGrows(req, s, s');
      case _ =>
    }
  }

  // ----------------------------------------------------- one locked section

  lemma NewTermVote(n: Node, id: int, s: P.State, req: VoteReq) returns (s': P.State)
    requires P.Inv(s) && NodeRel(n, id, s) && VoteReqRel(req, s)
    ensures var o := HandleVote(n, req);
      Moves(s, s', id) && NodeRel(o.node, id, s') && VoteRespRel(id, req, o.reply, s')
  {
    hide P.Inv, NodeRel, VoteInTerm, BecomeFollower;
    if req.term < n.term {
      s' := s;
    } else if req.term > n.term {
      var s1 := FollowNewTerm(n, id, s, req.term, UNKNOWN_LEADER);
      s' := VotingInTerm(BecomeFollower(n, req.term, UNKNOWN_LEADER).node, id, s1, req);
      MovesTwice(s, s1, s', id);
    } else {
      s' := VotingInTerm(n, id, s, req);
    }
  }

  lemma NewTermAppend(n: Node, id: int, s: P.State, req: AppendReq) returns (s': P.State)
    requires P.Inv(s) && NodeRel(n, id, s) && AppendReqRel(req, s)
    ensures var o := HandleAppend(n, req);
      Moves(s, s', id) && NodeRel(o.node, id, s') && AppendRespRel(id, req, o.reply, s')
  {
    hide P.Inv, NodeRel, AppendReqRel, AppendInTerm, BecomeFollower;
    if req.term < n.term {
      s' := s;
    } else if req.term > n.term {
      var s1 := FollowNewTerm(n, id, s, req.term, req.leader);
      AppendReqGrows(req, s, s1);
      s' := AppendHandled(BecomeFollower(n, req.term, req.leader).node, id, s1, req);
      MovesTwice(s, s1, s', id);
    } else {
      s' := AppendHandled(n, id, s, req);
    }
  }

  lemma NewTermInstall(n: Node, id: int, s: P.State, req: InstallReq) returns (s': P.State)
    requires P.Inv(s) && NodeRel(n, id, s) && InstallReqRel(req, s) && NoSnapshotRunning(n)
    ensures var o := HandleInstall(n, req);
      Moves(s, s', id) && NodeRel(o.node, id, s') && (o.reply.Some? ==> InstallRespRel(id, req, o.reply.value, s'))
  {
    hide P.Inv, NodeRel, InstallReqRel, InstallInTerm;
    if req.term < n.term {
      s' := s;
    } else if req.term > n.term {
      var s1 := FollowNewTerm(n, id, s, req.term, req.leader);
      InstallReqGrows(req, s, s1);
      s' := InstallHandled(BecomeFollower(n, req.term, req.leader).node, id, s1, req);
      MovesTwice(s, s1, s', id);
    } else {
      s' := InstallHandled(n, id, s, req);
    }
  }

  lemma Receives(n: Node, id: int, s: P.State, m: Msg) returns (s': P.State)
    requires P.Inv(s) && NodeRel(n, id, s) && MsgRel(m, s) && m.to == id == n.cfg.id
    requires m.InstallAsk? ==> NoSnapshotRunning(n)
    ensures var o := OnMessage(n, m);
      Moves(s, s', id) && NodeRel(o.node, id, s') && forall x :: x in o.reply ==> MsgRel(x, s')
  {
    hide P.Inv, NodeRel, AppendReqRel, InstallReqRel, HandleVote, HandleVoteResp, HandleAppend, HandleAppendResp, HandleInstall, HandleInstallResp;
    match m {
      case VoteAsk(_, req) => s' := NewTermVote(n, id, s, req);
      case VoteAnswer(from, _, req, resp) => s' := VoteAnswered(n, id, s, from, req, resp);
      case AppendAsk(_, req) => s' := NewTermAppend(n, id, s, req);
      case AppendAnswer(from, _, req, resp) => s' := AppendAnswered(n, id, s, from, req, resp);
      case InstallAsk(_, req) => s' := NewTermInstall(n, id, s, req);
      case InstallAnswer(from, _, req, resp) => s' := InstallAnswered(n, id, s, from, req, resp);
    }
    if m.VoteAsk? { MsgRelGrows(m, s, s'); }
  }

  lemma Reacts(c: Cluster, n: Node, id: int, s: P.State, i: Input) returns (s': P.State)
    requires P.Inv(s) && NodeRel(n, id, s) && NetRel(c, s) && Enabled(c, n, i) && n.cfg.id == id
    ensures var o := React(n, i);
      Moves(s, s', id) && NodeRel(o.node, id, s') && forall x :: x in o.reply ==> MsgRel(x, s')
  {
    hide P.Inv, NodeRel, AppendReqRel, InstallReqRel, VoteReqRel, SnapRel, OnMessage, StartElection, WinAlone, Propose, BuildAppend, BuildInstall,
      Pick, RunEntry, Publish, Capture, SaveImage, PublishImage;
    s' := s;
    match i {
      case Timeout => s' := Stands(n, id, s);
      case Alone => s' := WonAlone(n, id, s);
      case Client(command) => LimitIs(n, id, s); s' := Proposing(n, id, s, command);
      case SendAppend(p) => BuiltAppend(n, id, s, p);
      case SendInstall(p, stored) =>
        assert SnapRel((id, stored).1, s.done);
        BuiltInstall(n, id, s, p, stored);
      case Receive(m) => s' := Receives(n, id, s, m);
      case PickEntry => Picking(n, id, s);
      case ApplyPicked => Running(n, id, s);
      case PublishApplied => Publishing(n, id, s);
      case CaptureBoundary => Capturing(n, id, s);
      case SaveCaptured => SavingImage(n, id, s);
      case PublishSaved => PublishingImage(n, id, s);
    }
  }

  lemma LimitIs(n: Node, id: int, s: P.State)
    requires NodeRel(n, id, s)
    ensures n.cfg.limit == s.limit && n.cfg.id == id
  {
    hide MemberRel, Mirror, RoleRel, PhaseRel, SnapRel;
  }

  lemma Stands(n: Node, id: int, s: P.State) returns (s': P.State)
    requires P.Inv(s) && NodeRel(n, id, s)
    ensures var o := StartElection(n); Moves(s, s', id) && NodeRel(o.node, id, s') && |o.writes| <= 1
    ensures StartElection(n).reply.Some? ==> VoteReqRel(StartElection(n).reply.value, s')
  {
    hide P.Inv, NodeRel, VoteReqRel;
    if n.role == Leader { s' := s; } else { s' := Standing(n, id, s); }
  }

  // ----------------------------------------- crashing inside a locked section

  /** With at most one write, a crash happens before or after all of it. */
  lemma CrashesSimply(n: Node, n': Node, ws: seq<Write>, k: nat, id: int, s: P.State, s1: P.State) returns (s': P.State)
    requires P.Inv(s) && NodeRel(n, id, s) && Moves(s, s1, id) && NodeRel(n', id, s1)
    requires k <= |ws| <= 1 && n'.disk == PerformAll(n.disk, ws)
    ensures Moves(s, s', id) && DiskRel(PerformAll(n.disk, ws[..k]), s'.at[id], s'.done)
  {
    hide P.Inv, NodeRel, DiskRel, PerformAll;
    if k == 0 {
      s' := s;
      Nothing(n.disk, ws);
      MirrorDisk(n, id, s);
    } else {
      s' := s1;
      assert ws[..k] == ws;
      MirrorDisk(n', id, s1);
    }
  }

  /** Writes after a term change: the change itself is the first of them. */
  lemma AfterBump(d: Disk, w: Write, ws: seq<Write>, k: nat)
    requires 0 < k <= 1 + |ws|
    ensures PerformAll(d, ([w] + ws)[..k]) == PerformAll(Perform(d, w), ws[..k - 1])
  {
    assert ([w] + ws)[..k] == [w] + ws[..k - 1];
    PerformConcat(d, [w], ws[..k - 1]);
    PerformOne(d, w);
  }

  lemma VoteDisk(n: Node, req: VoteReq)
    ensures VoteInTerm(n, req).node.disk == PerformAll(n.disk, VoteInTerm(n, req).writes)
  {
    hide UpToDate;
    PerformOne(n.disk, SaveStable(Stable(n.term, req.candidate, n.commit, n.applied)));
  }

  lemma VoteCrashed(n: Node, id: int, s: P.State, req: VoteReq, k: nat) returns (s': P.State)
    requires P.Inv(s) && NodeRel(n, id, s) && VoteReqRel(req, s) && k <= |HandleVote(n, req).writes|
    ensures Moves(s, s', id) && DiskRel(PerformAll(n.disk, HandleVote(n, req).writes[..k]), s'.at[id], s'.done)
  {
    hide P.Inv, NodeRel, DiskRel, VoteInTerm, BecomeFollower, PerformAll, Perform;
    if k == 0 {
      s' := s;
      Nothing(n.disk, HandleVote(n, req).writes);
      MirrorDisk(n, id, s);
    } else if req.term > n.term {
      var s1 := FollowNewTerm(n, id, s, req.term, UNKNOWN_LEADER);
      var b := BecomeFollower(n, req.term, UNKNOWN_LEADER);
      var o := VoteInTerm(b.node, req);
      AfterBump(n.disk, b.writes[0], o.writes, k);
      var s2 := VotingInTerm(b.node, id, s1, req);
      VoteDisk(b.node, req);
      s' := CrashesSimply(b.node, o.node, o.writes, k - 1, id, s1, s2);
      MovesTwice(s, s1, s', id);
    } else {
      var s2 := VotingInTerm(n, id, s, req);
      VoteDisk(n, req);
      s' := CrashesSimply(n, VoteInTerm(n, req).node, VoteInTerm(n, req).writes, k, id, s, s2);
    }
  }

  lemma AppendAskCrashed(n: Node, id: int, s: P.State, req: AppendReq, k: nat) returns (s': P.State)
    requires P.Inv(s) && NodeRel(n, id, s) && AppendReqRel(req, s) && k <= |HandleAppend(n, req).writes|
    ensures Moves(s, s', id) && DiskRel(PerformAll(n.disk, HandleAppend(n, req).writes[..k]), s'.at[id], s'.done)
  {
    hide P.Inv, NodeRel, DiskRel, AppendReqRel, AppendInTerm, BecomeFollower, PerformAll, Perform;
    if k == 0 {
      s' := s;
      Nothing(n.disk, HandleAppend(n, req).writes);
      MirrorDisk(n, id, s);
    } else if req.term > n.term {
      var s1 := FollowNewTerm(n, id, s, req.term, req.leader);
      var b := BecomeFollower(n, req.term, req.leader);
      AfterBump(n.disk, b.writes[0], AppendInTerm(b.node, req).writes, k);
      AppendReqGrows(req, s, s1);
      s' := AppendCrashed(b.node, id, s1, req, k - 1);
      MovesTwice(s, s1, s', id);
    } else {
      s' := AppendCrashed(n, id, s, req, k);
    }
  }

  lemma InstallAskCrashed(n: Node, id: int, s: P.State, req: InstallReq, k: nat) returns (s': P.State)
    requires P.Inv(s) && NodeRel(n, id, s) && InstallReqRel(req, s) && NoSnapshotRunning(n)
    requires k <= |HandleInstall(n, req).writes|
    ensures Moves(s, s', id) && DiskRel(PerformAll(n.disk, HandleInstall(n, req).writes[..k]), s'.at[id], s'.done)
  {
    hide P.Inv, NodeRel, DiskRel, InstallReqRel, InstallInTerm, PerformAll, Perform;
    if k == 0 {
      s' := s;
      Nothing(n.disk, HandleInstall(n, req).writes);
      MirrorDisk(n, id, s);
    } else if req.term > n.term {
      var s1 := FollowNewTerm(n, id, s, req.term, req.leader);
      var b := BecomeFollower(n, req.term, req.leader);
      AfterBump(n.disk, b.writes[0], InstallInTerm(b.node, req).writes, k);
      InstallReqGrows(req, s, s1);
      s' := InstallCrashed(b.node, id, s1, req, k - 1);
      MovesTwice(s, s1, s', id);
    } else {
      s' := InstallCrashed(n, id, s, req, k);
    }
  }

  /** Sections whose writes are a single document or a single entry. */
  predicate OneWrite(i: Input) {
    !(i.Receive? && (i.msg.VoteAsk? || i.msg.AppendAsk? || i.msg.InstallAsk?))
  }

  lemma OneWriteDisk(n: Node, i: Input)
    requires OneWrite(i)
    ensures |React(n, i).writes| <= 1 && React(n, i).node.disk == PerformAll(n.disk, React(n, i).writes)
  {
    hide CommitPoint, LastIndex, LastTermOf, EntryAt, TermAt, EntriesFrom, TryApply, ValidCommand, Asks, BuildAppend, BuildInstall;
    hide Perform, PerformAll;
    var ws := React(n, i).writes;
    if |ws| == 1 {
      PerformOne(n.disk, ws[0]);
      assert ws == [ws[0]];
    } else if |ws| == 0 {
      Nothing(n.disk, ws);
      assert ws[..0] == ws;
    }
  }

  lemma Crashes(c: Cluster, n: Node, id: int, s: P.State, i: Input, k: nat) returns (s': P.State)
    requires P.Inv(s) && NodeRel(n, id, s) && NetRel(c, s) && Enabled(c, n, i) && n.cfg.id == id && k <= |React(n, i).writes|
    ensures Moves(s, s', id) && DiskRel(PerformAll(n.disk, React(n, i).writes[..k]), s'.at[id], s'.done)
  {
    hide P.Inv, NodeRel, AppendReqRel, InstallReqRel, VoteReqRel, SnapRel, DiskRel, PerformAll, HandleVote, HandleAppend, HandleInstall;
    if OneWrite(i) {
      var s1 := Reacts(c, n, id, s, i);
      OneWriteDisk(n, i);
      s' := CrashesSimply(n, React(n, i).node, React(n, i).writes, k, id, s, s1);
    } else {
      match i.msg {
        case VoteAsk(_, req) => s' := VoteCrashed(n, id, s, req, k);
        case AppendAsk(_, req) => s' := AppendAskCrashed(n, id, s, req, k);
        case InstallAsk(_, req) => s' := InstallAskCrashed(n, id, s, req, k);
      }
    }
  }

  // ------------------------------------------------------- cluster steps

  lemma ProcRelGrows(p: Proc, id: int, s: P.State, s': P.State)
    requires ProcRel(p, id, s) && P.Grows(s, s') && id in s'.at && s'.at[id] == s.at[id]
    ensures ProcRel(p, id, s')
  {
    hide NodeRel, DiskRel;
    match p {
      case Up(n) => NodeRelGrows(n, id, s, s');
      case Down(cfg, d) => DiskRelGrows(d, s.at[id], s.done, s'.done);
    }
  }

  /** One process and its messages moved; everything else is carried along. */
  lemma Moved(c: Cluster, s: P.State, s': P.State, id: int, p: Proc, sent: set<Msg>)
    requires Rel(c, s) && Moves(s, s', id) && id in c.procs && ProcRel(p, id, s')
    requires forall m :: m in sent ==> MsgRel(m, s')
    ensures Rel(c.(procs := c.procs[id := p], net := c.net + sent), s')
  {
    hide P.Inv, ProcRel, MsgRel, SnapRel;
    forall m | m in c.net ensures MsgRel(m, s') { MsgRelGrows(m, s, s'); }
    forall x | x in c.loaded ensures SnapRel(x.1, s'.done) { SnapRelGrows(x.1, s.done, s'.done); }
    forall i | i in c.procs && i != id ensures ProcRel(c.procs[i], i, s') { ProcRelGrows(c.procs[i], i, s, s'); }
  }

  /** A crashed process forgets its role. */
  lemma Rested(s: P.State, s1: P.State, id: int, cfg: Config, d: Disk) returns (s': P.State)
    requires Moves(s, s1, id) && id in s1.at && CfgRel(cfg, id, s) && DiskRel(d, s1.at[id], s1.done)
    ensures Moves(s, s', id) && ProcRel(Down(cfg, d), id, s')
  {
    hide P.Inv, Reconciled, SnapRel;
    s' := S.Rest(s1, id);
    K.RestKeeps(s1, id);
    MovesTwice(s, s1, s', id);
  }

  lemma CfgOf(n: Node, id: int, s: P.State)
    requires NodeRel(n, id, s)
    ensures CfgRel(n.cfg, id, s) && n.cfg.id == id && id in s.at
    ensures n.disk.snap.Some? ==> SnapRel(n.disk.snap.value, s.done)
  {
    hide MemberRel, Mirror, RoleRel, PhaseRel, SnapRel;
  }

  /** Facts grow, and no member's term or commit index goes back. */
  ghost predicate Later(s: P.State, s': P.State) {
    && P.Grows(s, s') && s'.at.Keys == s.at.Keys
    && forall id :: id in s.at ==> s.at[id].term <= s'.at[id].term && s.at[id].commit <= s'.at[id].commit
  }

  lemma LaterTwice(a: P.State, b: P.State, c: P.State)
    requires Later(a, b) && Later(b, c)
    ensures Later(a, c)
  {
  }

  lemma StepRefines(c: Cluster, e: Event, c': Cluster, s: P.State) returns (s': P.State)
    requires Rel(c, s) && Next(c, e, c')
    ensures Rel(c', s') && Later(s, s')
  {
    hide P.Inv, NetRel, NodeRel, DiskRel, CfgRel, SnapRel, React, Recover, Enabled, PerformAll;
    var p := c.procs[e.id];
    assert ProcRel(p, e.id, s) && P.Inv(s) && NetRel(c, s);
    hide Rel, MsgRel;
    match e {
      case Run(id, i) =>
        CfgOf(p.node, id, s);
        s' := Reacts(c, p.node, id, s, i);
        Moved(c, s, s', id, Up(React(p.node, i).node), React(p.node, i).reply);
      case Load(id) =>
        s' := s;
        CfgOf(p.node, id, s);
        Loads(c, s, id, p.node.disk.snap.value);
      case Crash(id, i, k) =>
        CfgOf(p.node, id, s);
        var s1 := Crashes(c, p.node, id, s, i, k);
        s' := Rested(s, s1, id, p.node.cfg, PerformAll(p.node.disk, React(p.node, i).writes[..k]));
        Moved(c, s, s', id, c'.procs[id], {});
        assert c.net + {} == c.net;
      case Start(id) =>
        s' := s;
        FreshRel(p.cfg, p.disk, id, s);
        Moved(c, s, s', id, c'.procs[id], {});
        assert c.net + {} == c.net;
      case StartCrash(id, k) =>
        s' := s;
        StartCrashes(p.cfg, p.disk, id, s, k);
        Moved(c, s, s', id, c'.procs[id], {});
        assert c.net + {} == c.net;
    }
  }

  lemma Loads(c: Cluster, s: P.State, id: int, snap: Snapshot)
    requires Rel(c, s) && SnapRel(snap, s.done)
    ensures Rel(c.(loaded := c.loaded + {(id, snap)}), s)
  {
    hide P.Inv, ProcRel, MsgRel, SnapRel;
  }

  lemma StartCrashes(cfg: Config, d: Disk, id: int, s: P.State, k: nat)
    requires P.Inv(s) && ProcRel(Down(cfg, d), id, s) && k <= |Recover(cfg, d).writes|
    ensures ProcRel(Down(cfg, PerformAll(d, Recover(cfg, d).writes[..k])), id, s)
  {
    hide P.Inv, DiskRel, Recover, PerformAll, P.Certified, P.Anchored;
    MemberHistory(s, id);
    RecoveryCrashed(cfg, d, s.at[id], s.done, k);
  }

  // ---------------------------------------------------------------- runs

  function Blank(c: Cluster, limit: nat): P.State {
    P.State(c.procs.Keys, limit, map id | id in c.procs :: P.Member(0, NO_VOTE, [], 0, Follower),
            map[], map[], map[], map[], map[], [])
  }

  lemma InitRel(c: Cluster, limit: nat)
    requires Init(c, limit)
    ensures Rel(c, Blank(c, limit))
  {
    var s := Blank(c, limit);
    assert P.Inv(s) by { assert P.Certified(s, s.done, 0); }
    forall id | id in c.procs ensures ProcRel(c.procs[id], id, s) {
      hide P.Inv;
      assert Reconciled([], Boundary(0, 0)) == Some([]);
    }
  }

  /** Every state of a run stands for a protocol state, and facts only grow along it. */
  lemma {:induction false} RunRefines(run: seq<Cluster>, events: seq<Event>, limit: nat) returns (states: seq<P.State>)
    requires IsRun(run, events, limit)
    ensures |states| == |run| && (forall i :: 0 <= i < |run| ==> Rel(run[i], states[i]))
    ensures forall i, j :: 0 <= i <= j < |run| ==> Later(states[i], states[j])
    decreases |events|
  {
    hide Rel, Next, Init, P.Inv, Later;
    if events == [] {
      InitRel(run[0], limit);
      states := [Blank(run[0], limit)];
      LaterSelf(states[0]);
    } else {
      var k := |events| - 1;
      var before := RunRefines(run[..k + 1], events[..k], limit);
      assert Next(run[k], events[k], run[k + 1]);
      var s' := StepRefines(run[k], events[k], run[k + 1], before[k]);
      states := before + [s'];
      forall i | 0 <= i <= k ensures Later(states[i], s') { LaterTwice(before[i], before[k], s'); }
      LaterSelf(s');
    }
  }

  lemma LaterSelf(s: P.State)
    ensures Later(s, s)
  {
  }
}
