/** Commitment keeps up with counting: no leader of two or more nodes is ever
    left with an index above its commit index that it may commit. */
module Commitment {
  import opened Entries
  import opened KvStore
  import opened Disk
  import opened Node
  import opened Relation
  import opened Elections
  import opened Replication
  import opened Snapshots
  import opened Cluster
  import opened Refinement
  import opened Safety
  import opened Progress
  import opened Cursors
  import P = Protocol

  /** Nothing above the commit index is committable. */
  ghost predicate Maximal(n: Node) {
    forall j: nat :: n.commit < j ==> !Committable(n, j)
  }

  // ------------------------------------------------------------- counting

  lemma {:induction false} MatchedLess(peers: seq<int>, m: map<int, nat>, m': map<int, nat>, j: nat)
    requires forall p :: p in m' && m'[p] >= j ==> p in m && m[p] >= j
    ensures Matched(peers, m', j) <= Matched(peers, m, j)
  {
    if peers != [] { MatchedLess(peers[1..], m, m', j); }
  }

  lemma {:induction false} MatchedNone(peers: seq<int>, m: map<int, nat>, j: nat)
    requires forall p :: p in m ==> m[p] < j
    ensures Matched(peers, m, j) == 0
  {
    if peers != [] { MatchedNone(peers[1..], m, j); }
  }

  lemma NoneCounted(n: Node, j: nat)
    requires n.cfg.peers != [] && forall p :: p in n.match_ ==> n.match_[p] < j
    ensures !Committable(n, j)
  {
    MatchedNone(n.cfg.peers, n.match_, j);
  }

  /** A leader that leads on in its term and counts no more above its commit
      index may commit no more. */
  lemma StaysMaximal(n: Node, n': Node, id: int, s: P.State, s': P.State)
    requires P.Inv(s) && P.Inv(s') && P.Grows(s, s') && NodeRel(n, id, s) && NodeRel(n', id, s')
    requires n.role == Leader && n'.role == Leader && n'.term == n.term && n'.cfg == n.cfg && n'.commit == n.commit
    requires forall p :: p in n'.match_ && n'.match_[p] > n.commit ==> p in n.match_ && n.match_[p] == n'.match_[p]
    requires n.cfg.peers != [] && Maximal(n)
    ensures Maximal(n')
  {
    hide P.Inv, NodeRel, Matched, TermAt;
    forall j: nat | n'.commit < j ensures !Committable(n', j) {
      if j <= LastIndex(n) {
        SameTerm(n, n', id, s, s', j);
        MatchedLess(n.cfg.peers, n.match_, n'.match_, j);
        assert !Committable(n, j);
      } else {
        forall p | p in n'.match_ ensures n'.match_[p] < j { MatchInLog(n, id, s, p); }
        NoneCounted(n', j);
      }
    }
  }

  lemma SameTerm(n: Node, n': Node, id: int, s: P.State, s': P.State, j: nat)
    requires P.Inv(s) && P.Inv(s') && P.Grows(s, s') && NodeRel(n, id, s) && NodeRel(n', id, s')
    requires n.role == Leader && n'.role == Leader && n'.term == n.term && n'.commit == n.commit < j <= LastIndex(n)
    ensures TermAt(n', j) == TermAt(n, j)
  {
    hide P.Inv, PhaseRel, CfgRel, Mirror, RoleRel, P.Certified, P.Anchored, AllFit, TermAt, LastIndex;
    MemberHistory(s, id);
    MemberHistory(s', id);
    LeaderLog(s, id);
    LeaderLog(s', id);
    LastIs(n, s.at[id].hist);
    TermIs(n, s.at[id].hist, j);
    TermIs(n', s'.at[id].hist, j);
  }

  lemma FreshMaximal(n: Node)
    requires n.cfg.peers != []
    ensures Maximal(BecomeLeader(n).node)
  {
    hide Perform, TermAt, Matched, Majority;
    var n' := BecomeLeader(n).node;
    forall j: nat | n'.commit < j ensures !Committable(n', j) { NoneCounted(n', j); }
  }

  /** Counting an answer commits all it makes committable. */
  lemma CountedMaximal(n: Node, id: int, s: P.State)
    requires P.Inv(s) && NodeRel(n, id, s) && n.role == Leader
    ensures Maximal(AdvanceCommit(n).node)
  {
    hide P.Inv, PhaseRel, CfgRel, Mirror, RoleRel, P.Certified, P.Anchored, AllFit, Matched, TermAt, SuffixOf, LastIndex;
    MemberHistory(s, id);
    LastIs(n, s.at[id].hist);
    var n' := AdvanceCommit(n).node;
    forall j: nat | n'.commit < j ensures !Committable(n', j) {
      TermIs(n, s.at[id].hist, j);
      SameLookup(n, n', j);
    }
  }

  lemma SameLookup(n: Node, n': Node, j: nat)
    requires n' == n.(commit := n'.commit, disk := n'.disk)
    ensures TermAt(n', j) == TermAt(n, j) && Committable(n', j) == Committable(n, j)
  {
  }

  // ------------------------------------------- snapshots a leader has sent

  /** A snapshot request never passes its leader's commit index. */
  ghost predicate Within(r: InstallReq, s: P.State) {
    r.term in s.elected && s.elected[r.term] in s.at && r.index <= s.at[s.elected[r.term]].commit
  }

  ghost predicate AllWithin(c: Cluster, s: P.State) {
    forall m :: m in c.net && (m.InstallAsk? || m.InstallAnswer?) ==> Within(m.install, s)
  }

  lemma WithinLater(r: InstallReq, s: P.State, s': P.State)
    requires Within(r, s) && Later(s, s')
    ensures Within(r, s')
  {
  }

  lemma ReactSends(n: Node, i: Input, m: Msg)
    requires m in React(n, i).reply && (m.InstallAsk? || m.InstallAnswer?)
    ensures (i.SendInstall? && BuildInstall(n, i.peer, Some(i.stored)) == Some(m.install))
      || (i.Receive? && i.msg.InstallAsk? && m.install == i.msg.install)
  {
    hide HandleVote, HandleVoteResp, HandleAppend, HandleAppendResp, HandleInstall, HandleInstallResp, BuildAppend, BuildInstall, StartElection,
      WinAlone, Propose, Pick, RunEntry, Publish, Capture, SaveImage, PublishImage;
  }

  lemma SentWithin(n: Node, id: int, s: P.State, peer: int, stored: Option<Snapshot>)
    requires P.Inv(s) && NodeRel(n, id, s) && BuildInstall(n, peer, stored).Some?
    ensures Within(BuildInstall(n, peer, stored).value, s)
  {
    hide P.Inv, PhaseRel, CfgRel, Mirror, RoleRel, SuffixOf;
    LeaderLog(s, id);
  }

  lemma StepWithin(c: Cluster, e: Event, c': Cluster, s: P.State, s': P.State)
    requires Rel(c, s) && Later(s, s') && Next(c, e, c') && AllWithin(c, s)
    ensures AllWithin(c', s')
  {
    hide React, Recover, PerformAll, Within, Later, Rel;
    forall m | m in c'.net && (m.InstallAsk? || m.InstallAnswer?) ensures Within(m.install, s') {
      if m in c.net {
        WithinLater(m.install, s, s');
      } else {
        var n := c.procs[e.id].node;
        ReactSends(n, e.input, m);
        UpNode(c, s, e.id);
        if e.input.SendInstall? { SentWithin(n, e.id, s, e.input.peer, Some(e.input.stored)); }
        WithinLater(m.install, s, s');
      }
    }
  }

  // ----------------------------------------------------------- every step

  /** n' leads on as n did: same term, members, commit index and counts. */
  predicate LeadsSame(n: Node, n': Node) {
    n.role == Leader && n'.term == n.term && n'.cfg == n.cfg && n'.commit == n.commit && n'.match_ == n.match_
  }

  lemma Same(n: Node, n': Node)
    requires n.role == Leader && n'.term == n.term && n'.cfg == n.cfg && n'.commit == n.commit && n'.match_ == n.match_
    ensures LeadsSame(n, n')
  {
  }

  lemma MessageSame(n: Node, m: Msg)
    requires m.VoteAsk? || m.AppendAsk? || m.InstallAsk?
    ensures OnMessage(n, m).node.role == Leader ==> LeadsSame(n, OnMessage(n, m).node)
  {
    hide UpToDate, AppendInTerm, InstallInTerm, Perform;
    match m {
      case VoteAsk(_, _) =>
      case AppendAsk(_, req) =>
        AppendKeepsTerm(n, req);
        AppendKeepsTerm(BecomeFollower(n, req.term, req.leader).node, req);
      case InstallAsk(_, req) =>
        InstallKeepsTerm(n, req);
        InstallKeepsTerm(BecomeFollower(n, req.term, req.leader).node, req);
    }
  }

  lemma VoteMaximal(n: Node, from: int, req: VoteReq, resp: VoteResp)
    requires n.cfg.peers != []
    ensures var n' := HandleVoteResp(n, from, req, resp).node; n'.role == Leader ==> LeadsSame(n, n') || Maximal(n')
  {
    hide BecomeLeader, Maximal, Perform;
    FreshMaximal(n.(granted := n.granted + {from}));
  }

  lemma AppendMaximal(n: Node, id: int, s: P.State, from: int, req: AppendReq, resp: AppendResp)
    requires P.Inv(s) && NodeRel(n, id, s) && AppendRespRel(from, req, resp, s)
    ensures var n' := HandleAppendResp(n, from, req, resp).node; n'.role == Leader ==> LeadsSame(n, n') || Maximal(n')
  {
    hide P.Inv, NodeRel, AdvanceCommit, Maximal, Perform;
    if n.role == Leader && resp.success && req.term == n.term == resp.term {
      var k := Max(At(n.match_, from), req.prevIndex + |req.entries|);
      var n1 := n.(match_ := n.match_[from := k], next := n.next[from := Max(At(n.next, from), k + 1)]);
      CountedRel(n, id, s, from, req, n1);
      CountedMaximal(n1, id, s);
    }
  }

  /** Counting a snapshot answer raises nothing above the commit index. */
  lemma InstallMaximal(n: Node, id: int, s: P.State, s': P.State, from: int, req: InstallReq, resp: InstallResp)
    requires P.Inv(s) && P.Inv(s') && P.Grows(s, s') && NodeRel(n, id, s) && NodeRel(HandleInstallResp(n, from, req, resp).node, id, s')
    requires Within(req, s) && n.cfg.peers != [] && (n.role == Leader ==> Maximal(n))
    ensures var n' := HandleInstallResp(n, from, req, resp).node; n'.role == Leader ==> Maximal(n')
  {
    hide P.Inv, NodeRel, Maximal, Perform;
    var n' := HandleInstallResp(n, from, req, resp).node;
    if n'.role == Leader {
      LeaderFactsOf(n, id, s);
      StaysMaximal(n, n', id, s, s');
    }
  }

  lemma LeaderFactsOf(n: Node, id: int, s: P.State)
    requires P.Inv(s) && NodeRel(n, id, s) && n.role == Leader
    ensures n.term in s.elected && s.elected[n.term] == id && id in s.at && s.at[id].commit == n.commit
  {
    hide P.Inv, PhaseRel, CfgRel, Mirror, RoleRel, SuffixOf;
    LeaderLog(s, id);
  }

  lemma ReactMaximal(c: Cluster, n: Node, id: int, s: P.State, i: Input)
    requires P.Inv(s) && NodeRel(n, id, s) && NetRel(c, s) && AllWithin(c, s) && Enabled(c, n, i) && n.cfg.id == id
    requires n.cfg.peers != [] && (n.role == Leader ==> Maximal(n))
    ensures React(n, i).node.role == Leader ==> Maximal(React(n, i).node)
  {
    hide P.Inv, NodeRel, React, Maximal, MsgRel, Within, LeadsSame;
    var s' := Reacts(c, n, id, s, i);
    var n' := React(n, i).node;
    if n'.role == Leader {
      if i.Receive? {
        ReceiveMaximal(n, id, s, s', i.msg);
      } else if i.Alone? {
        AloneMaximal(n);
      } else {
        QuietLeads(n, i);
        assert LeadsSame(n, n') by { Same(n, n'); }
        LeadsMaximal(n, n', id, s, s');
      }
    }
  }

  lemma AloneMaximal(n: Node)
    requires n.cfg.peers != [] && (n.role == Leader ==> Maximal(n))
    ensures React(n, Alone).node.role == Leader ==> Maximal(React(n, Alone).node)
  {
    hide BecomeLeader, Maximal;
    FreshMaximal(n);
  }

  lemma ReceiveMaximal(n: Node, id: int, s: P.State, s': P.State, m: Msg)
    requires P.Inv(s) && P.Inv(s') && P.Grows(s, s') && NodeRel(n, id, s) && NodeRel(React(n, Receive(m)).node, id, s')
    requires MsgRel(m, s) && (m.InstallAsk? || m.InstallAnswer? ==> Within(m.install, s))
    requires n.cfg.peers != [] && (n.role == Leader ==> Maximal(n)) && React(n, Receive(m)).node.role == Leader
    ensures Maximal(React(n, Receive(m)).node)
  {
    hide P.Inv, NodeRel, Maximal, Within, LeadsSame, HandleVote, HandleVoteResp, HandleAppend, HandleAppendResp, HandleInstall, HandleInstallResp,
      VoteReqRel, AppendReqRel, InstallReqRel;
    var n' := React(n, Receive(m)).node;
    match m {
      case VoteAnswer(from, _, req, resp) => VoteMaximal(n, from, req, resp);
      case AppendAnswer(from, _, req, resp) => AppendMaximal(n, id, s, from, req, resp);
      case InstallAnswer(from, _, req, resp) => InstallMaximal(n, id, s, s', from, req, resp);
      case _ => MessageSame(n, m);
    }
    if LeadsSame(n, n') && !m.InstallAnswer? { LeadsMaximal(n, n', id, s, s'); }
  }

  lemma LeadsMaximal(n: Node, n': Node, id: int, s: P.State, s': P.State)
    requires P.Inv(s) && P.Inv(s') && P.Grows(s, s') && NodeRel(n, id, s) && NodeRel(n', id, s')
    requires n'.role == Leader && LeadsSame(n, n') && n.cfg.peers != [] && (n.role == Leader ==> Maximal(n))
    ensures Maximal(n')
  {
    hide P.Inv, NodeRel, Maximal;
    StaysMaximal(n, n', id, s, s');
  }

  ghost predicate AllMaximal(c: Cluster) {
    forall id :: Leads(c, id) && c.procs[id].node.cfg.peers != [] ==> Maximal(c.procs[id].node)
  }

  lemma StepMaximal(c: Cluster, e: Event, c': Cluster, s: P.State)
    requires Rel(c, s) && Next(c, e, c') && AllWithin(c, s) && AllMaximal(c)
    ensures AllMaximal(c')
  {
    hide Maximal, React, Recover, PerformAll, Enabled, AllWithin, P.Inv, NetRel, ProcRel, NodeRel;
    forall id | Leads(c', id) && c'.procs[id].node.cfg.peers != [] ensures Maximal(c'.procs[id].node) {
      if e.id == id && e.Start? { BootedFollows(c.procs[id].cfg, c.procs[id].disk); }
      if e.id == id && e.Run? {
        UpNode(c, s, id);
        LimitIs(c.procs[id].node, id, s);
        SameCfg(c.procs[id].node, e.input);
        ReactMaximal(c, c.procs[id].node, id, s, e.input);
      } else {
        assert Leads(c, id);
      }
    }
  }

  lemma SameCfg(n: Node, i: Input)
    ensures React(n, i).node.cfg == n.cfg
  {
    hide OnMessage, LastTermOf, EntryAt, TermAt, EntriesFrom, TryApply, ValidCommand, Asks, BuildAppend, BuildInstall, Perform, LastIndex, Uniform;
    if i.Receive? { MessageCfg(n, i.msg); }
  }

  lemma MessageCfg(n: Node, m: Msg)
    ensures OnMessage(n, m).node.cfg == n.cfg
  {
    hide UpToDate, AppendInTerm, InstallInTerm, Perform, CommitPoint, LastIndex, Uniform;
    match m {
      case AppendAsk(_, req) => AppendKeepsTerm(n, req); AppendKeepsTerm(BecomeFollower(n, req.term, req.leader).node, req);
      case InstallAsk(_, req) => InstallKeepsTerm(n, req); InstallKeepsTerm(BecomeFollower(n, req.term, req.leader).node, req);
      case _ =>
    }
  }

  lemma {:induction false} AlwaysMaximal(run: seq<Cluster>, events: seq<Event>, limit: nat, i: nat)
    requires IsRun(run, events, limit) && i < |run|
    ensures AllMaximal(run[i])
  {
    hide Rel, Next, AllWithin, AllMaximal, Init;
    var states := RunRefines(run, events, limit);
    InitMaximal(run[0], limit, states[0]);
    var k := 0;
    while k < i
      invariant k <= i && AllWithin(run[k], states[k]) && AllMaximal(run[k])
    {
      assert Next(run[k], events[k], run[k + 1]) && Later(states[k], states[k + 1]);
      StepWithin(run[k], events[k], run[k + 1], states[k], states[k + 1]);
      StepMaximal(run[k], events[k], run[k + 1], states[k]);
      k := k + 1;
    }
  }

  lemma InitMaximal(c: Cluster, limit: nat, s: P.State)
    requires Init(c, limit)
    ensures AllWithin(c, s) && AllMaximal(c)
  {
  }

  // -------------------------------------------------------- a cluster of one

  /** A node without peers: nothing committed, nothing snapshotted. */
  predicate SoloNode(n: Node) {
    && n.cfg.peers == [] && 0 < n.cfg.threshold && n.commit == 0 && n.applied == 0 && n.meta.index == 0 && n.phase == Idle
    && n.next == map[] && SoloDisk(n.disk)
  }

  predicate SoloDisk(d: Disk) {
    d.snap.None? && d.stable.commit == 0
  }

  predicate SoloProc(p: Proc) {
    match p
    case Up(n) => SoloNode(n)
    case Down(cfg, d) => cfg.peers == [] && 0 < cfg.threshold && SoloDisk(d)
  }

  predicate Solo(c: Cluster) {
    c.net == {} && c.loaded == {} && forall id :: id in c.procs ==> SoloProc(c.procs[id])
  }

  /** Such a node sends nothing, and no write of its touches the commit index. */
  lemma SoloReacts(c: Cluster, n: Node, i: Input)
    requires SoloNode(n) && c.net == {} && c.loaded == {} && Enabled(c, n, i)
    ensures SoloNode(React(n, i).node) && React(n, i).reply == {} && |React(n, i).writes| <= 1
    ensures forall w :: w in React(n, i).writes ==> w.AppendEntry? || (w.SaveStable? && w.stable.commit == 0)
  {
    hide LastIndex, LastTermOf, EntryAt, TermAt, EntriesFrom, ValidCommand;
    if i.Timeout? && React(n, i).reply != {} { NoPeers(n, StartElection(n).reply.value); }
  }

  lemma NoPeers(n: Node, r: VoteReq)
    requires n.cfg.peers == []
    ensures Asks(n, r) == {}
  {
  }

  lemma SoloBoots(cfg: Config, d: Disk)
    requires SoloProc(Down(cfg, d))
    ensures Recover(cfg, d).Booted? ==> SoloNode(Recover(cfg, d).node)
    ensures |Recover(cfg, d).writes| <= 1
    ensures forall w :: w in Recover(cfg, d).writes ==> w.SaveStable? && w.stable.commit == 0
  {
    hide Replay, Loadable, FollowsBoundary;
  }

  lemma SoloCrash(d: Disk, ws: seq<Write>, k: nat)
    requires SoloDisk(d) && k <= |ws| <= 1 && forall w :: w in ws ==> w.AppendEntry? || (w.SaveStable? && w.stable.commit == 0)
    ensures SoloDisk(PerformAll(d, ws[..k]))
  {
    if k == 1 {
      assert ws[0] in ws && ws[..k] == [ws[0]];
      PerformOne(d, ws[0]);
    } else {
      Nothing(d, ws);
    }
  }

  lemma SoloStep(c: Cluster, e: Event, c': Cluster)
    requires Solo(c) && Next(c, e, c')
    ensures Solo(c')
  {
    hide React, Recover, PerformAll, Enabled, SoloDisk;
    var p := c.procs[e.id];
    assert SoloProc(p);
    match e {
      case Run(_, i) => SoloReacts(c, p.node, i);
      case Load(_) => NoLoad(p.node);
      case Crash(_, i, k) =>
        SoloReacts(c, p.node, i);
        SoloCrash(p.node.disk, React(p.node, i).writes, k);
      case Start(_) => SoloBoots(p.cfg, p.disk);
      case StartCrash(_, k) =>
        SoloBoots(p.cfg, p.disk);
        SoloCrash(p.disk, Recover(p.cfg, p.disk).writes, k);
    }
  }

  lemma NoLoad(n: Node)
    requires SoloNode(n)
    ensures n.disk.snap.None?
  {
  }

  /** In a cluster of one, nothing is ever committed. */
  lemma {:induction false} SoloRun(run: seq<Cluster>, events: seq<Event>, limit: nat, i: nat, a: int)
    requires IsRun(run, events, limit) && i < |run| && run[0].procs.Keys == {a}
    ensures Solo(run[i])
  {
    hide Solo, Next;
    if i == 0 {
      SoloInit(run[0], limit, a);
    } else {
      SoloRun(run, events, limit, i - 1, a);
      SoloStep(run[i - 1], events[i - 1], run[i]);
    }
  }

  lemma SoloInit(c: Cluster, limit: nat, a: int)
    requires Init(c, limit) && c.procs.Keys == {a}
    ensures Solo(c)
  {
    forall id | id in c.procs ensures SoloProc(c.procs[id]) {
      assert id in c.procs.Keys && {a} - {id} == {};
      NoMembers(c.procs[id].cfg.peers);
    }
  }

  lemma NoMembers(peers: seq<int>)
    ensures (set p | p in peers) == {} ==> peers == []
  {
    var m := set p | p in peers;
    assert forall x :: x in peers ==> x in m;
    assert peers == [] || peers[0] in peers;
  }

  /** The members never change. */
  lemma SoloKeys(run: seq<Cluster>, events: seq<Event>, limit: nat, i: nat, a: int)
    requires IsRun(run, events, limit) && i < |run| && Leads(run[i], a) && run[i].procs[a].node.cfg.peers == []
    ensures run[0].procs.Keys == {a}
  {
    hide IsRun, Rel, NodeRel, P.Inv, Later;
    var states := RunRefines(run, events, limit);
    assert Later(states[0], states[i]) && Rel(run[0], states[0]) && Rel(run[i], states[i]);
    UpNode(run[i], states[i], a);
    SoloNodes(run[i].procs[a].node, a, states[i]);
    KeysOf(run[0], states[0]);
    SameKeys(states[0], states[i]);
  }

  lemma SameKeys(s: P.State, s': P.State)
    requires Later(s, s')
    ensures s'.at.Keys == s.at.Keys
  {
  }

  lemma KeysOf(c: Cluster, s: P.State)
    requires Rel(c, s)
    ensures c.procs.Keys == s.at.Keys
  {
    hide P.Inv, NetRel, ProcRel;
  }

  lemma SoloNodes(n: Node, a: int, s: P.State)
    requires P.Inv(s) && NodeRel(n, a, s) && n.cfg.peers == []
    ensures s.at.Keys == {a}
  {
    hide P.Inv, MemberRel, Mirror, PhaseRel, RoleRel, SnapRel, P.Certified, P.Anchored, P.Below;
    MemberHistory(s, a);
    assert s.nodes - {a} == {};
  }

  /** The last entry of a leader without peers is its own, and its own copy is a majority. */
  lemma SoloCommittable(n: Node, a: int, s: P.State)
    requires P.Inv(s) && NodeRel(n, a, s) && n.role == Leader && n.cfg.peers == [] && n.commit == 0 && n.meta.index == 0
    ensures 0 < LastIndex(n) && Committable(n, LastIndex(n))
  {
    hide P.Inv, PhaseRel, CfgRel, Mirror, RoleRel, P.Certified, P.Anchored, AllFit, TermAt, LastIndex;
    MemberHistory(s, a);
    LeaderLog(s, a);
    LeadEnds(s, n.term);
    LastIs(n, s.at[a].hist);
    TermIs(n, s.at[a].hist, |s.at[a].hist|);
  }

  /** In every reachable state a leader has committed all it may commit, if and
      only if it has peers: only an answer advances the commit index. */
  lemma CommitMaximalIff(run: seq<Cluster>, events: seq<Event>, limit: nat, i: nat, a: int)
    requires IsRun(run, events, limit) && i < |run| && Leads(run[i], a)
    ensures Maximal(run[i].procs[a].node) <==> run[i].procs[a].node.cfg.peers != []
  {
    hide IsRun, Maximal, Rel, P.Inv, NodeRel, Committable, LastIndex;
    var n := run[i].procs[a].node;
    AlwaysMaximal(run, events, limit, i);
    if n.cfg.peers == [] {
      SoloKeys(run, events, limit, i, a);
      SoloRun(run, events, limit, i, a);
      assert SoloProc(run[i].procs[a]);
      var states := RunRefines(run, events, limit);
      assert Rel(run[i], states[i]);
      UpNode(run[i], states[i], a);
      SoloCommittable(n, a, states[i]);
      Shown(n, LastIndex(n));
    }
  }

  lemma Shown(n: Node, j: nat)
    requires n.commit < j && Committable(n, j)
    ensures !Maximal(n)
  {
  }
}
