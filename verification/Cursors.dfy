/** Every leader's replication cursors stay within its log. */
module Cursors {
  import opened Entries
  import opened KvStore
  import opened Disk
  import opened Node
  import opened Relation
  import opened Replication
  import opened Snapshots
  import opened Cluster
  import opened Refinement
  import opened Safety
  import opened Progress
  import P = Protocol

  /** A cursor for every peer, between the first index and one past the last. */
  predicate CursorsOk(n: Node) {
    n.role == Leader ==>
      && (forall p :: p in n.cfg.peers ==> p in n.next)
      && (forall p :: p in n.next ==> 1 <= n.next[p] <= LastIndex(n) + 1)
  }

  /** A leader that leads on with its cursors, in its term, has not lost log. */
  lemma SameCursors(n: Node, n': Node, id: int, s: P.State, s': P.State)
    requires P.Inv(s) && P.Inv(s') && P.Grows(s, s') && NodeRel(n, id, s) && NodeRel(n', id, s')
    requires n'.role == n.role && n'.term == n.term && n'.next == n.next && n'.cfg == n.cfg && CursorsOk(n)
    ensures CursorsOk(n')
  {
    hide P.Inv, PhaseRel, CfgRel, Mirror, RoleRel, LastIndex, P.Certified, P.Anchored, AllFit;
    if n'.role == Leader {
      MemberHistory(s, id);
      MemberHistory(s', id);
      LeaderLog(s, id);
      LeaderLog(s', id);
      LastIs(n, s.at[id].hist);
      LastIs(n', s'.at[id].hist);
    }
  }

  /** A new leader ends its log with its own no-op and starts every cursor
      just behind it, with nothing counted yet. */
  lemma FreshCursors(n: Node)
    ensures var n' := BecomeLeader(n).node;
      && CursorsOk(n') && LastIndex(n') == LastIndex(n) + 1 && n'.log == n.log + [NoopFor(n)] && NoopFor(n).term == n'.term
      && forall p :: p in n.cfg.peers ==> n'.next[p] == LastIndex(n') + 1 && At(n'.match_, p) == 0
  {
    hide Perform;
    var n' := BecomeLeader(n).node;
    assert n'.log[|n'.log| - 1] == NoopFor(n);
  }

  /** What an answer acknowledges lies within this leader's log. */
  lemma AckInLog(n: Node, id: int, s: P.State, from: int, k: nat)
    requires P.Inv(s) && NodeRel(n, id, s) && n.role == Leader && P.Acked(s, n.term, from, k)
    ensures k <= LastIndex(n)
  {
    hide P.Inv, PhaseRel, CfgRel, Mirror, RoleRel, LastIndex, P.Certified, P.Anchored, AllFit;
    MemberHistory(s, id);
    LeaderLog(s, id);
    LastIs(n, s.at[id].hist);
    AckLength(s, n.term, from, k);
  }

  lemma CountedCursors(n: Node, id: int, s: P.State, from: int, req: AppendReq, resp: AppendResp)
    requires P.Inv(s) && NodeRel(n, id, s) && AppendRespRel(from, req, resp, s) && CursorsOk(n)
    ensures CursorsOk(HandleAppendResp(n, from, req, resp).node)
  {
    hide P.Inv, NodeRel, CommitPoint, LastIndexFor;
    if n.role == Leader && resp.success && resp.term == req.term == n.term {
      AckInLog(n, id, s, from, req.prevIndex + |req.entries|);
      MatchInLog(n, id, s, from);
    }
  }

  lemma MatchInLog(n: Node, id: int, s: P.State, from: int)
    requires P.Inv(s) && NodeRel(n, id, s) && n.role == Leader
    ensures At(n.match_, from) <= LastIndex(n)
  {
    hide P.Inv, PhaseRel, CfgRel, Mirror, LastIndex, MemberRel;
    if from in n.match_ && n.match_[from] != 0 { AckInLog(n, id, s, from, n.match_[from]); }
  }

  lemma InstallCursors(n: Node, id: int, s: P.State, from: int, req: InstallReq, resp: InstallResp)
    requires P.Inv(s) && NodeRel(n, id, s) && InstallRespRel(from, req, resp, s) && CursorsOk(n)
    ensures CursorsOk(HandleInstallResp(n, from, req, resp).node)
  {
    hide P.Inv, NodeRel, LastIndexFor;
    if n.role == Leader && resp.term == req.term == n.term {
      AckInLog(n, id, s, from, req.index);
    }
  }

  lemma MessageCursors(n: Node, id: int, s: P.State, m: Msg)
    requires P.Inv(s) && NodeRel(n, id, s) && MsgRel(m, s) && CursorsOk(n)
    ensures CursorsOk(OnMessage(n, m).node)
  {
    hide P.Inv, NodeRel, AppendReqRel, InstallReqRel, HandleAppendResp, HandleInstallResp, UpToDate, BecomeLeader, AppendInTerm, InstallInTerm, LastIndexFor;
    match m {
      case VoteAsk(_, req) =>
      case VoteAnswer(from, _, req, resp) => FreshCursors(n.(granted := n.granted + {from}));
      case AppendAsk(_, req) =>
        AppendKeepsTerm(n, req);
        AppendKeepsTerm(BecomeFollower(n, req.term, req.leader).node, req);
      case AppendAnswer(from, _, req, resp) => CountedCursors(n, id, s, from, req, resp);
      case InstallAsk(_, req) =>
        InstallKeepsTerm(n, req);
        InstallKeepsTerm(BecomeFollower(n, req.term, req.leader).node, req);
      case InstallAnswer(from, _, req, resp) => InstallCursors(n, id, s, from, req, resp);
    }
  }

  lemma ReactCursors(c: Cluster, n: Node, id: int, s: P.State, i: Input)
    requires P.Inv(s) && NodeRel(n, id, s) && NetRel(c, s) && Enabled(c, n, i) && CursorsOk(n) && n.cfg.id == id
    ensures CursorsOk(React(n, i).node)
  {
    hide P.Inv, NodeRel, OnMessage, BecomeLeader, LastTermOf, EntryAt, TermAt, EntriesFrom, TryApply, ValidCommand, Asks, BuildAppend, BuildInstall, Perform, MsgRel;
    match i {
      case Receive(m) => MessageCursors(n, id, s, m);
      case Alone => FreshCursors(n);
      case PublishSaved =>
        var s' := Reacts(c, n, id, s, i);
        SameCursors(n, PublishImage(n).node, id, s, s');
      case _ =>
    }
  }

  /** In every reachable state a leader has a cursor for each peer, and none
      points outside its log. */
  lemma {:induction false} CursorsInRange(run: seq<Cluster>, events: seq<Event>, limit: nat, i: nat)
    requires IsRun(run, events, limit) && i < |run|
    ensures forall id :: id in run[i].procs && run[i].procs[id].Up? ==> CursorsOk(run[i].procs[id].node)
  {
    hide CursorsOk, React, Recover, PerformAll, Enabled, Rel;
    if i > 0 {
      CursorsInRange(run, events, limit, i - 1);
      var states := RunRefines(run, events, limit);
      StepCursors(run[i - 1], events[i - 1], run[i], states[i - 1]);
    }
  }

  lemma StepCursors(c: Cluster, e: Event, c': Cluster, s: P.State)
    requires Rel(c, s) && Next(c, e, c')
    requires forall id :: id in c.procs && c.procs[id].Up? ==> CursorsOk(c.procs[id].node)
    ensures forall id :: id in c'.procs && c'.procs[id].Up? ==> CursorsOk(c'.procs[id].node)
  {
    hide CursorsOk, React, Recover, PerformAll, Enabled, P.Inv, NetRel, DiskRel, NodeRel;
    assert ProcRel(c.procs[e.id], e.id, s);
    if e.Run? {
      LimitIs(c.procs[e.id].node, e.id, s);
      ReactCursors(c, c.procs[e.id].node, e.id, s, e.input);
    } else if e.Start? {
      BootedFollows(c.procs[e.id].cfg, c.procs[e.id].disk);
    }
  }

  lemma BootedFollows(cfg: Config, d: Disk)
    ensures Recover(cfg, d).Booted? ==> CursorsOk(Recover(cfg, d).node) && Recover(cfg, d).node.role == Follower
  {
    hide Replay, Reconcile, Loadable, FollowsBoundary, PerformAll, Restorable, Perform;
  }

  // ----------------------------------------- cursors of peers yet to answer

  /** p has answered a replication request in term t. */
  predicate Answers(m: Msg, p: int, t: nat) {
    (m.AppendAnswer? && m.from == p && m.appendResp.term == t) || (m.InstallAnswer? && m.from == p && m.installResp.term == t)
  }

  predicate Unanswered(net: set<Msg>, p: int, t: nat) {
    forall m :: m in net ==> !Answers(m, p, t)
  }

  /** Until a peer answers in the leader's term, the entry before its cursor is
      one the leader made itself. */
  ghost predicate Unmoved(n: Node, id: int, net: set<Msg>, s: P.State) {
    n.role == Leader && id in s.at ==> forall p :: p in n.next && Unanswered(net, p, n.term) ==>
      1 < n.next[p] <= |s.at[id].hist| + 1 && TermIn(s.at[id].hist, n.next[p] - 1) == n.term
  }

  /** n' leads on in n's term and moved no cursor of a peer yet to answer. */
  predicate LeadsOn(n: Node, n': Node, net: set<Msg>) {
    && n.role == Leader && n'.term == n.term
    && forall p :: p in n'.next && Unanswered(net, p, n.term) ==> p in n.next && n'.next[p] == n.next[p]
  }

  /** n ends with an entry of its own term, and every cursor is just past it. */
  predicate NewlyLeads(n: Node) {
    n.log != [] && n.log[|n.log| - 1].term == n.term && forall p :: p in n.next ==> n.next[p] == LastIndex(n) + 1
  }

  lemma NoopEnds(n: Node)
    ensures NewlyLeads(BecomeLeader(n).node)
  {
    hide Perform;
    var n' := BecomeLeader(n).node;
    assert n'.log[|n'.log| - 1] == NoopFor(n);
  }

  lemma AskLeads(n: Node, m: Msg, net: set<Msg>)
    requires m.VoteAsk? || m.AppendAsk? || m.InstallAsk?
    ensures var n' := OnMessage(n, m).node; n'.role == Leader ==> LeadsOn(n, n', net)
  {
    hide UpToDate, AppendInTerm, InstallInTerm, LastIndexFor, Perform;
    match m {
      case VoteAsk(_, req) =>
      case AppendAsk(_, req) =>
        AppendKeepsTerm(n, req);
        AppendKeepsTerm(BecomeFollower(n, req.term, req.leader).node, req);
      case InstallAsk(_, req) =>
        InstallKeepsTerm(n, req);
        InstallKeepsTerm(BecomeFollower(n, req.term, req.leader).node, req);
    }
  }

  lemma MessageLeads(n: Node, m: Msg, net: set<Msg>)
    requires m in net
    ensures var n' := OnMessage(n, m).node; n'.role == Leader ==> LeadsOn(n, n', net) || NewlyLeads(n')
  {
    hide HandleVote, HandleAppend, HandleInstall, BecomeLeader, LastIndexFor, Perform, CommitPoint, NewlyLeads;
    match m {
      case VoteAnswer(from, _, req, resp) => NoopEnds(n.(granted := n.granted + {from}));
      case AppendAnswer(from, _, req, resp) =>
        assert resp.term == n.term ==> Answers(m, from, n.term);
      case InstallAnswer(from, _, req, resp) =>
        assert resp.term == n.term ==> Answers(m, from, n.term);
      case _ => AskLeads(n, m, net);
    }
  }

  /** The role, term, known leader, members, commit index, cursors and counts are n's. */
  predicate SameLead(n: Node, n': Node) {
    && n'.role == n.role && n'.term == n.term && n'.leader == n.leader && n'.cfg == n.cfg && n'.commit == n.commit
    && n'.next == n.next && n'.match_ == n.match_
  }

  lemma ApplySame(n: Node)
    ensures SameLead(n, Pick(n).node) && SameLead(n, RunEntry(n).node) && SameLead(n, Publish(n).node)
  {
    hide EntryAt, TryApply, Perform;
  }

  lemma SnapshotSame(n: Node)
    ensures SameLead(n, Capture(n).node) && SameLead(n, SaveImage(n).node) && SameLead(n, PublishImage(n).node)
  {
    hide TermAt, EntriesFrom, Perform;
  }

  lemma ProposeSame(n: Node, c: Command)
    ensures SameLead(n, Propose(n, c).node)
  {
    hide ValidCommand, Perform, LastIndex;
  }

  /** Nothing but elections and messages touches those. */
  lemma QuietLeads(n: Node, i: Input)
    requires !i.Receive? && !i.Alone?
    ensures (i.Timeout? ==> React(n, i).node.role == Leader) ==> SameLead(n, React(n, i).node)
  {
    hide LastTermOf, Asks, BuildAppend, BuildInstall, Perform, LastIndex, Pick, RunEntry, Publish, Capture, SaveImage, PublishImage, Propose;
    ApplySame(n);
    SnapshotSame(n);
    if i.Client? { ProposeSame(n, i.command); }
  }

  lemma ReactLeads(c: Cluster, n: Node, i: Input)
    requires Enabled(c, n, i)
    ensures var n' := React(n, i).node; n'.role == Leader ==> LeadsOn(n, n', c.net) || NewlyLeads(n')
  {
    if i.Receive? {
      hide OnMessage, LeadsOn, NewlyLeads;
      MessageLeads(n, i.msg, c.net);
    } else if i.Alone? {
      hide BecomeLeader, NewlyLeads;
      NoopEnds(n);
    } else {
      hide React, NewlyLeads;
      QuietLeads(n, i);
    }
  }

  lemma LeadsOnUnmoved(n: Node, n': Node, id: int, net: set<Msg>, net': set<Msg>, s: P.State, s': P.State)
    requires P.Inv(s) && P.Inv(s') && P.Grows(s, s') && NodeRel(n, id, s) && NodeRel(n', id, s')
    requires n'.role == Leader && LeadsOn(n, n', net) && Unmoved(n, id, net, s) && net <= net'
    ensures Unmoved(n', id, net', s')
  {
    hide P.Inv, PhaseRel, CfgRel, Mirror, RoleRel, SuffixOf;
    LeaderLog(s, id);
    LeaderLog(s', id);
    forall p | p in n'.next && Unanswered(net', p, n'.term) ensures Unanswered(net, p, n.term) {}
  }

  lemma NewlyUnmoved(n: Node, id: int, net: set<Msg>, s: P.State)
    requires P.Inv(s) && NodeRel(n, id, s) && n.role == Leader && NewlyLeads(n)
    ensures Unmoved(n, id, net, s)
  {
    hide P.Inv, PhaseRel, CfgRel, Mirror, RoleRel, LastIndex, P.Certified, P.Anchored, AllFit, Unanswered;
    MemberHistory(s, id);
    var h := s.at[id].hist;
    LastIs(n, h);
    assert n.log[|n.log| - 1] == h[|h| - 1];
  }

  ghost predicate AllUnmoved(c: Cluster, s: P.State) {
    forall id :: id in c.procs && c.procs[id].Up? ==> Unmoved(c.procs[id].node, id, c.net, s)
  }

  /** An answer's term is one its sender has reached. */
  ghost predicate AnswersReached(c: Cluster, s: P.State) {
    forall m, t: nat :: m in c.net && (m.AppendAnswer? || m.InstallAnswer?) && Answers(m, m.from, t) ==>
      m.from in s.at && t <= s.at[m.from].term
  }

  /** A node that leads after a step led before it, or has just been elected. */
  lemma StepLeads(c: Cluster, e: Event, c': Cluster, id: int)
    requires Next(c, e, c') && id in c'.procs && c'.procs[id].Up? && c'.procs[id].node.role == Leader
    ensures id in c.procs && c.procs[id].Up? && c.net <= c'.net
    ensures LeadsOn(c.procs[id].node, c'.procs[id].node, c.net) || NewlyLeads(c'.procs[id].node)
  {
    hide React, Recover, PerformAll, Enabled, LeadsOn, NewlyLeads;
    if e.id == id && e.Start? { BootedFollows(c.procs[id].cfg, c.procs[id].disk); }
    if e.id == id && e.Run? { ReactLeads(c, c.procs[id].node, e.input); } else if c.procs[id].Up? { Idles(c.procs[id].node, c.net); }
  }

  lemma UpNode(c: Cluster, s: P.State, id: int)
    requires Rel(c, s) && id in c.procs && c.procs[id].Up?
    ensures P.Inv(s) && NodeRel(c.procs[id].node, id, s)
  {
    hide P.Inv, NetRel, NodeRel, DiskRel;
    assert ProcRel(c.procs[id], id, s);
  }

  lemma NodeUnmoved(c: Cluster, e: Event, c': Cluster, s: P.State, s': P.State, id: int)
    requires Rel(c, s) && Rel(c', s') && Later(s, s') && Next(c, e, c') && AllUnmoved(c, s)
    requires id in c'.procs && c'.procs[id].Up? && c'.procs[id].node.role == Leader
    ensures Unmoved(c'.procs[id].node, id, c'.net, s')
  {
    hide Unmoved, Next, P.Inv, NodeRel, LeadsOn, NewlyLeads, Rel;
    StepLeads(c, e, c', id);
    UpNode(c, s, id);
    UpNode(c', s', id);
    var n, n' := c.procs[id].node, c'.procs[id].node;
    assert Unmoved(n, id, c.net, s);
    if NewlyLeads(n') { NewlyUnmoved(n', id, c'.net, s'); } else { LeadsOnUnmoved(n, n', id, c.net, c'.net, s, s'); }
  }

  lemma Idles(n: Node, net: set<Msg>)
    ensures n.role == Leader ==> LeadsOn(n, n, net)
  {
  }

  lemma AnswersKept(c: Cluster, e: Event, c': Cluster, s: P.State, s': P.State)
    requires Rel(c, s) && Rel(c', s') && Later(s, s') && Next(c, e, c') && AnswersReached(c, s)
    ensures AnswersReached(c', s')
  {
    hide React, Recover, PerformAll, Enabled, P.Inv, NetRel, DiskRel, Rel;
    forall m, t: nat | m in c'.net && (m.AppendAnswer? || m.InstallAnswer?) && Answers(m, m.from, t)
      ensures m.from in s'.at && t <= s'.at[m.from].term
    {
      if m !in c.net {
        SentBy(c, s, e.id);
        SentBy(c', s', e.id);
        ReactAnswers(c.procs[e.id].node, e.input, m, t);
      }
    }
  }

  lemma SentBy(c: Cluster, s: P.State, id: int)
    requires Rel(c, s) && id in c.procs && c.procs[id].Up?
    ensures id in s.at && c.procs[id].node.cfg.id == id && c.procs[id].node.term == s.at[id].term
  {
    hide P.Inv, NetRel, Mirror, RoleRel, PhaseRel, SnapRel, DiskRel;
    assert ProcRel(c.procs[id], id, s);
  }

  lemma ReactAnswers(n: Node, i: Input, m: Msg, t: nat)
    requires m in React(n, i).reply && (m.AppendAnswer? || m.InstallAnswer?) && Answers(m, m.from, t)
    ensures m.from == n.cfg.id && t <= React(n, i).node.term
  {
    hide AppendInTerm, InstallInTerm, VoteInTerm, CommitPoint, Perform, BecomeLeader, BuildAppend, BuildInstall;
    if i.Receive? {
      match i.msg {
        case AppendAsk(_, req) =>
          AppendKeepsTerm(n, req);
          AppendKeepsTerm(BecomeFollower(n, req.term, req.leader).node, req);
        case InstallAsk(_, req) =>
          InstallKeepsTerm(n, req);
          InstallKeepsTerm(BecomeFollower(n, req.term, req.leader).node, req);
        case _ =>
      }
    }
  }

  /** Along every run, cursors of peers yet to answer stay behind an entry of
      the leader's own term, and answers carry terms their senders reached. */
  lemma {:induction false} UnmovedCursors(run: seq<Cluster>, events: seq<Event>, limit: nat, i: nat) returns (s: P.State)
    requires IsRun(run, events, limit) && i < |run|
    ensures Rel(run[i], s) && AllUnmoved(run[i], s) && AnswersReached(run[i], s)
  {
    hide Rel, Next, AllUnmoved, AnswersReached, Init;
    var states := RunRefines(run, events, limit);
    InitUnmoved(run[0], limit, states[0]);
    var k := 0;
    while k < i
      invariant k <= i && AllUnmoved(run[k], states[k]) && AnswersReached(run[k], states[k])
    {
      assert Next(run[k], events[k], run[k + 1]) && Later(states[k], states[k + 1]);
      StepUnmoved(run[k], events[k], run[k + 1], states[k], states[k + 1]);
      AnswersKept(run[k], events[k], run[k + 1], states[k], states[k + 1]);
      k := k + 1;
    }
    s := states[i];
  }

  lemma InitUnmoved(c: Cluster, limit: nat, s: P.State)
    requires Init(c, limit)
    ensures AllUnmoved(c, s) && AnswersReached(c, s)
  {
  }

  lemma NotLeading(n: Node, id: int, net: set<Msg>, s: P.State)
    requires n.role != Leader
    ensures Unmoved(n, id, net, s)
  {
  }

  lemma StepUnmoved(c: Cluster, e: Event, c': Cluster, s: P.State, s': P.State)
    requires Rel(c, s) && Rel(c', s') && Later(s, s') && Next(c, e, c') && AllUnmoved(c, s)
    ensures AllUnmoved(c', s')
  {
    hide Unmoved, Next, Rel, Later;
    forall id | id in c'.procs && c'.procs[id].Up? ensures Unmoved(c'.procs[id].node, id, c'.net, s') {
      if c'.procs[id].node.role == Leader { NodeUnmoved(c, e, c', s, s', id); } else { NotLeading(c'.procs[id].node, id, c'.net, s'); }
    }
  }

  // ------------------------------------------------------------- matchIndex

  /** The message is p's answer, in the leader's term, to a snapshot older than
      what the leader had counted for p. */
  predicate StaleInstall(m: Msg, n: Node, p: int) {
    m.InstallAnswer? && m.from == p && m.install.term == n.term == m.installResp.term && m.install.index < At(n.match_, p)
  }

  lemma MessageMatches(n: Node, m: Msg, p: int)
    requires n.role == Leader && OnMessage(n, m).node.role == Leader
    ensures At(OnMessage(n, m).node.match_, p) < At(n.match_, p) <==> StaleInstall(m, n, p)
  {
    hide UpToDate, BecomeLeader, AppendInTerm, InstallInTerm, LastIndexFor, Perform, CommitPoint;
    match m {
      case AppendAsk(_, req) =>
        AppendKeepsTerm(n, req);
        AppendKeepsTerm(BecomeFollower(n, req.term, req.leader).node, req);
      case InstallAsk(_, req) =>
        InstallKeepsTerm(n, req);
        InstallKeepsTerm(BecomeFollower(n, req.term, req.leader).node, req);
      case _ =>
    }
  }

  predicate Leads(c: Cluster, a: int) {
    a in c.procs && c.procs[a].Up? && c.procs[a].node.role == Leader
  }

  predicate ReceivesStale(e: Event, c: Cluster, a: int, p: int)
    requires Leads(c, a)
  {
    e.id == a && e.Run? && e.input.Receive? && StaleInstall(e.input.msg, c.procs[a].node, p)
  }

  /** While a node leads, one step of the run lowers what it has counted for a
      peer if and only if the step receives such an answer. */
  lemma MatchIndexFallsIff(run: seq<Cluster>, events: seq<Event>, limit: nat, i: nat, a: int, p: int)
    requires IsRun(run, events, limit) && i < |events| && Leads(run[i], a) && Leads(run[i + 1], a)
    ensures At(run[i + 1].procs[a].node.match_, p) < At(run[i].procs[a].node.match_, p)
      <==> ReceivesStale(events[i], run[i], a, p)
  {
    hide OnMessage, Recover, PerformAll, Enabled, Init, StaleInstall;
    assert Next(run[i], events[i], run[i + 1]);
    var n, e := run[i].procs[a].node, events[i];
    if e.id == a && e.Run? {
      if e.input.Receive? { MessageMatches(n, e.input.msg, p); } else if !e.input.Alone? { hide React; QuietLeads(n, e.input); }
    }
  }

  /** So over any stretch in which a node keeps leading and receives none, what
      it has counted only grows. */
  lemma {:induction false} MatchIndexGrows(run: seq<Cluster>, events: seq<Event>, limit: nat, i: nat, j: nat, a: int, p: int)
    requires IsRun(run, events, limit) && i <= j < |run| && (forall k :: i <= k <= j ==> Leads(run[k], a))
    requires forall k :: i <= k < j && Leads(run[k], a) ==> !ReceivesStale(events[k], run[k], a, p)
    ensures Leads(run[i], a) && Leads(run[j], a)
    ensures At(run[i].procs[a].node.match_, p) <= At(run[j].procs[a].node.match_, p)
    decreases j - i
  {
    hide IsRun, ReceivesStale;
    if i < j {
      assert |run| == |events| + 1 by { Lengths(run, events, limit); }
      MatchIndexFallsIff(run, events, limit, j - 1, a, p);
      MatchIndexGrows(run, events, limit, i, j - 1, a, p);
    }
  }

  lemma Lengths(run: seq<Cluster>, events: seq<Event>, limit: nat)
    requires IsRun(run, events, limit)
    ensures |run| == |events| + 1
  {
    hide Next, Init;
  }
}
