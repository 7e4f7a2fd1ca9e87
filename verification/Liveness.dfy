/** The cluster is never stuck for good: from every reachable state a majority
    can elect a leader, and any command can be committed and applied. */
module Liveness {
  import opened Entries
  import opened KvStore
  import opened Disk
  import opened Node
  import opened Relation
  import opened Replication
  import opened Snapshots
  import opened ApplyLoop
  import opened Cluster
  import opened Refinement
  import opened Safety
  import opened Progress
  import opened Cursors
  import opened Commitment
  import opened CatchUp
  import opened Voting
  import opened Applying
  import opened Proposals
  import opened Traces
  import opened Campaigns
  import P = Protocol

  // ------------------------------------------------- rounds as parts of a run

  /** Two running nodes, under their own names; the second takes no snapshot. */
  predicate Running2(c: Cluster, a: int, b: int) {
    && a in c.procs && b in c.procs && a != b && c.procs[a].Up? && c.procs[b].Up?
    && c.procs[a].node.cfg.id == a && c.procs[b].node.cfg.id == b && NoSnapshotRunning(c.procs[b].node)
  }

  /** The other processes are as they were. */
  predicate OnlyThese(c: Cluster, c': Cluster, a: int, b: int) {
    c'.procs.Keys == c.procs.Keys && forall v :: v in c.procs && v != a && v != b ==> c'.procs[v] == c.procs[v]
  }

  lemma AppendRuns(tr: Trace, limit: nat, a: int, b: int) returns (u: Trace)
    requires Legal(tr, limit) && Running2(End(tr), a, b)
    ensures Legal(u, limit) && GoesOn(tr, u) && OnlyThese(End(tr), End(u), a, b)
    ensures var r := AppendRound(End(tr).procs[a].node, End(tr).procs[b].node); End(u).procs[a] == Up(r.l) && End(u).procs[b] == Up(r.f)
  {
    hide IsRun, BuildAppend, HandleAppend, HandleAppendResp;
    var l, f := End(tr).procs[a].node, End(tr).procs[b].node;
    u := tr;
    if BuildAppend(l, b).Some? {
      var r := BuildAppend(l, b).value;
      FromLeader(l, b);
      u := Acts(u, limit, a, SendAppend(b));
      u := Acts(u, limit, b, Receive(AppendAsk(b, r)));
      u := Acts(u, limit, a, Receive(AppendAnswer(b, a, r, HandleAppend(f, r).reply)));
    }
  }

  lemma FromLeader(l: Node, b: int)
    ensures BuildAppend(l, b).Some? ==> BuildAppend(l, b).value.leader == l.cfg.id
    ensures BuildInstall(l, b, l.disk.snap).Some? ==> BuildInstall(l, b, l.disk.snap).value.leader == l.cfg.id && l.disk.snap.Some?
  {
    hide TermAt, EntriesFrom, LastIndex;
  }

  lemma InstallRuns(tr: Trace, limit: nat, a: int, b: int) returns (u: Trace)
    requires Legal(tr, limit) && Running2(End(tr), a, b)
    ensures Legal(u, limit) && GoesOn(tr, u) && OnlyThese(End(tr), End(u), a, b)
    ensures var r := InstallRound(End(tr).procs[a].node, End(tr).procs[b].node); End(u).procs[a] == Up(r.l) && End(u).procs[b] == Up(r.f)
  {
    hide IsRun, BuildInstall, HandleInstall, HandleInstallResp;
    var l, f := End(tr).procs[a].node, End(tr).procs[b].node;
    u := tr;
    if BuildInstall(l, b, l.disk.snap).Some? {
      var r := BuildInstall(l, b, l.disk.snap).value;
      FromLeader(l, b);
      u := Traces.Loads(u, limit, a);
      u := Acts(u, limit, a, SendInstall(b, l.disk.snap.value));
      u := Acts(u, limit, b, Receive(InstallAsk(b, r)));
      if HandleInstall(f, r).reply.Some? {
        u := Acts(u, limit, a, Receive(InstallAnswer(b, a, r, HandleInstall(f, r).reply.value)));
      }
    }
  }

  lemma StepRuns(tr: Trace, limit: nat, a: int, b: int) returns (u: Trace)
    requires Legal(tr, limit) && Running2(End(tr), a, b)
    ensures Legal(u, limit) && GoesOn(tr, u) && OnlyThese(End(tr), End(u), a, b)
    ensures var r := Step(End(tr).procs[a].node, End(tr).procs[b].node); End(u).procs[a] == Up(r.l) && End(u).procs[b] == Up(r.f)
  {
    hide IsRun, AppendRound, InstallRound;
    if NeedsSnapshot(End(tr).procs[a].node, End(tr).procs[b].node) { u := InstallRuns(tr, limit, a, b); } else { u := AppendRuns(tr, limit, a, b); }
  }

  /** Neither a round nor its parts change who the two are or what the second's
      apply loop is doing. */
  lemma StepNames(l: Node, f: Node)
    ensures var r := Step(l, f); r.l.cfg == l.cfg && r.f.cfg == f.cfg && r.f.phase == f.phase && r.l.phase == l.phase
  {
    hide BuildAppend, BuildInstall, HandleAppend, HandleInstall, HandleAppendResp, HandleInstallResp;
    if BuildAppend(l, f.cfg.id).Some? {
      var r := BuildAppend(l, f.cfg.id).value;
      AppendNames(f, r);
      AnswerNames(l, f.cfg.id, r, HandleAppend(f, r).reply, InstallReq(0, 0, 0, 0, NoBytes), InstallResp(0));
    }
    if BuildInstall(l, f.cfg.id, l.disk.snap).Some? {
      var r := BuildInstall(l, f.cfg.id, l.disk.snap).value;
      InstallNames(f, r);
      if HandleInstall(f, r).reply.Some? {
        AnswerNames(l, f.cfg.id, AppendReq(0, 0, 0, 0, [], 0), AppendResp(0, false), r, HandleInstall(f, r).reply.value);
      }
    }
  }

  lemma AppendNames(f: Node, r: AppendReq)
    ensures var n := HandleAppend(f, r).node; n.cfg == f.cfg && n.phase == f.phase
  {
    hide AppendInTerm, Perform;
    AppendKeepsTerm(f, r);
    AppendKeepsTerm(BecomeFollower(f, r.term, r.leader).node, r);
  }

  lemma InstallNames(f: Node, r: InstallReq)
    ensures var n := HandleInstall(f, r).node; n.cfg == f.cfg && n.phase == f.phase
  {
    hide InstallInTerm, Perform;
    InstallKeepsTerm(f, r);
    InstallKeepsTerm(BecomeFollower(f, r.term, r.leader).node, r);
  }

  lemma AnswerNames(l: Node, p: int, a: AppendReq, ar: AppendResp, r: InstallReq, rr: InstallResp)
    ensures var n := HandleAppendResp(l, p, a, ar).node; n.cfg == l.cfg && n.phase == l.phase
    ensures var n := HandleInstallResp(l, p, r, rr).node; n.cfg == l.cfg && n.phase == l.phase
  {
    hide CommitPoint, Perform, LastIndex;
  }

  /** Any number of rounds between two running nodes is part of a run. */
  lemma {:induction false} RoundsRun(tr: Trace, limit: nat, a: int, b: int, k: nat) returns (u: Trace)
    requires Legal(tr, limit) && Running2(End(tr), a, b)
    ensures Legal(u, limit) && GoesOn(tr, u) && OnlyThese(End(tr), End(u), a, b)
    ensures var r := Rounds(End(tr).procs[a].node, End(tr).procs[b].node, k); End(u).procs[a] == Up(r.l) && End(u).procs[b] == Up(r.f)
    decreases k
  {
    hide IsRun, Step, Rounds, SnapshotsSent;
    var l, f := End(tr).procs[a].node, End(tr).procs[b].node;
    NoRounds(l, f);
    u := tr;
    if k > 0 {
      RoundsStep(l, f, k);
      StepNames(l, f);
      u := StepRuns(tr, limit, a, b);
      if Step(l, f).Again? {
        var w := RoundsRun(u, limit, a, b, k - 1);
        u := w;
      }
    }
  }

  // ------------------------------------------------ bringing a majority level

  /** Rounds with f leave every other peer's cursor and count alone. */
  ghost predicate OthersSame(l: Node, l': Node, p: int) {
    forall x :: x != p ==> At(l'.next, x) == At(l.next, x) && At(l'.match_, x) == At(l.match_, x)
  }

  lemma AnswerOthers(l: Node, p: int, a: AppendReq, ar: AppendResp, r: InstallReq, rr: InstallResp)
    ensures OthersSame(l, HandleAppendResp(l, p, a, ar).node, p) && OthersSame(l, HandleInstallResp(l, p, r, rr).node, p)
  {
    hide CommitPoint, Perform, LastIndex;
  }

  lemma StepOthers(l: Node, f: Node)
    ensures OthersSame(l, Step(l, f).l, f.cfg.id)
  {
    hide BuildAppend, BuildInstall, HandleAppend, HandleInstall, HandleAppendResp, HandleInstallResp, OthersSame;
    var p := f.cfg.id;
    AllSame(l, p);
    if BuildAppend(l, p).Some? {
      var r := BuildAppend(l, p).value;
      AnswerOthers(l, p, r, HandleAppend(f, r).reply, InstallReq(0, 0, 0, 0, NoBytes), InstallResp(0));
    }
    if BuildInstall(l, p, l.disk.snap).Some? {
      var r := BuildInstall(l, p, l.disk.snap).value;
      if HandleInstall(f, r).reply.Some? {
        AnswerOthers(l, p, AppendReq(0, 0, 0, 0, [], 0), AppendResp(0, false), r, HandleInstall(f, r).reply.value);
      }
    }
  }

  lemma AllSame(l: Node, p: int)
    ensures OthersSame(l, l, p)
  {
  }

  lemma {:induction false} RoundsKeep(l: Node, f: Node, a: int, b: int, s: P.State, k: nat)
    requires Linked(l, f, a, b, s)
    ensures SameLeader(l, Rounds(l, f, k).l) && OthersSame(l, Rounds(l, f, k).l, b)
    decreases k
  {
    hide P.Inv, NodeRel, AppendRound, InstallRound, Rounds, SnapshotsSent, MatchesPrefix, LastIndex, SameThrough, Synced;
    NoRounds(l, f);
    if k > 0 {
      RoundsStep(l, f, k);
      StepOthers(l, f);
      var s';
      if NeedsSnapshot(l, f) { s' := InstallRoundGoes(l, f, a, b, s); } else { s' := AppendRoundGoes(l, f, a, b, s); }
      if Step(l, f).Again? { RoundsKeep(Step(l, f).l, Step(l, f).f, a, b, s', k - 1); }
    }
  }

  /** Peers of a leader that its replication loop can bring level. */
  ghost predicate Ready(c: Cluster, a: int, vs: set<int>) {
    && Leads(c, a) && NoSnapshotRunning(c.procs[a].node)
    && forall v :: v in vs ==>
         && v in c.procs && v != a && c.procs[v].Up?
         && AtRest(c.procs[a].node, c.procs[v].node) && Reachable(c.procs[a].node, c.procs[v].node)
  }

  /** One of them is brought level and counted. */
  lemma LevelsOne(tr: Trace, limit: nat, a: int, b: int) returns (u: Trace)
    requires Legal(tr, limit) && Ready(End(tr), a, {b})
    ensures Legal(u, limit) && GoesOn(tr, u) && OnlyThese(End(tr), End(u), a, b) && End(u).procs[a].Up? && End(u).procs[b].Up?
    ensures var l, l' := End(tr).procs[a].node, End(u).procs[a].node;
      SameLeader(l, l') && OthersSame(l, l', b) && At(l'.match_, b) == LastIndex(l)
  {
    hide IsRun, P.Inv, NodeRel, Rounds, SnapshotsSent, Level, LastIndex, Synced, SameLeader, OthersSame;
    var last := |tr.run| - 1;
    assert b in {b};
    Facts(tr, limit, a);
    Facts(tr, limit, b);
    var l, f := End(tr).procs[a].node, End(tr).procs[b].node;
    var s := PairUp(tr.run, tr.events, limit, last, a, b);
    var k := LastIndex(l) - l.meta.index + 3;
    CatchUpIff(tr.run, tr.events, limit, last, a, b);
    RoundsKeep(l, f, a, b, s, k);
    RoundsNames(l, f, k);
    u := RoundsRun(tr, limit, a, b, k);
    SameReach(l, Rounds(l, f, k).l);
  }

  lemma {:induction false} RoundsNames(l: Node, f: Node, k: nat)
    ensures Rounds(l, f, k).f.cfg == f.cfg
    decreases k
  {
    hide Rounds, SnapshotsSent, Step;
    NoRounds(l, f);
    if k > 0 {
      RoundsStep(l, f, k);
      StepNames(l, f);
      if Step(l, f).Again? { RoundsNames(Step(l, f).l, Step(l, f).f, k - 1); }
    }
  }

  /** All of them are. */
  lemma {:induction false} LevelsAll(tr: Trace, limit: nat, a: int, vs: set<int>) returns (u: Trace)
    requires Legal(tr, limit) && Ready(End(tr), a, vs)
    ensures Legal(u, limit) && GoesOn(tr, u) && End(u).procs.Keys == End(tr).procs.Keys && Leads(End(u), a)
    ensures forall x :: x in End(tr).procs && x !in vs + {a} ==> End(u).procs[x] == End(tr).procs[x]
    ensures var l, l' := End(tr).procs[a].node, End(u).procs[a].node;
      && SameLeader(l, l') && (forall v :: v in vs ==> At(l'.match_, v) == LastIndex(l))
      && forall x :: x !in vs ==> At(l'.match_, x) == At(l.match_, x)
    decreases vs
  {
    hide IsRun, LastIndex;
    if vs == {} {
      u := tr;
    } else {
      var b := P.Pick(vs);
      u := LevelsOne(tr, limit, a, b);
      var l, l' := End(tr).procs[a].node, End(u).procs[a].node;
      SameReach(l, l');
      forall v | v in vs ensures End(tr).procs[v].node.cfg.id == v { Facts(tr, limit, v); }
      assert Ready(End(u), a, vs - {b});
      u := LevelsAll(u, limit, a, vs - {b});
    }
  }

  // ------------------------------------------------------ committing, applying

  /** A leader whose last entry is of its term and counted on a majority has
      committed all it has. */
  lemma CommitsLast(tr: Trace, limit: nat, a: int, q: set<int>)
    requires Legal(tr, limit) && Leads(End(tr), a) && P.Quorum(End(tr).procs.Keys, q) && a in q && |End(tr).procs.Keys| >= 2
    requires var l := End(tr).procs[a].node;
      TermAt(l, LastIndex(l)) == Some(l.term) && forall v :: v in q && v != a ==> At(l.match_, v) == LastIndex(l)
    ensures End(tr).procs[a].node.commit == LastIndex(End(tr).procs[a].node)
  {
    hide IsRun, LastIndex, TermAt, Matched, Majority;
    var l := End(tr).procs[a].node;
    var x := LastIndex(l);
    Facts(tr, limit, a);
    Others(tr, limit, a);
    Bounds(tr, limit, a);
    if l.commit < x {
      var all := set p | p in l.cfg.peers && p in l.match_ && l.match_[p] >= x;
      forall v | v in q && v != a ensures v in all { assert At(l.match_, v) == x && v in End(tr).procs; }
      P.WiderQuorum(End(tr).procs.Keys, q, all + {a});
      Majorities(tr, limit, a, all);
      MatchedSet(l.cfg.peers, l.match_, x);
      assert Committable(l, x);
    }
    CommitMaximalIff(tr.run, tr.events, limit, |tr.run| - 1, a);
  }

  /** In a cluster of two or more, every node has peers. */
  lemma Others(tr: Trace, limit: nat, a: int)
    requires Legal(tr, limit) && a in End(tr).procs && End(tr).procs[a].Up? && |End(tr).procs.Keys| >= 2
    ensures End(tr).procs[a].node.cfg.peers != []
  {
    hide IsRun;
    Facts(tr, limit, a);
    var rest := End(tr).procs.Keys - {a};
    assert |End(tr).procs.Keys| == |rest| + 1;
    var v := P.Pick(rest);
    assert v in End(tr).procs[a].node.cfg.peers;
  }

  lemma Bounds(tr: Trace, limit: nat, a: int)
    requires Legal(tr, limit) && a in End(tr).procs && End(tr).procs[a].Up?
    ensures var n := End(tr).procs[a].node;
      && n.commit <= LastIndex(n) && n.cfg.limit == limit
      && forall i, j :: 0 <= i < j < |n.cfg.peers| ==> n.cfg.peers[i] != n.cfg.peers[j]
  {
    hide IsRun, Rel, P.Inv, NodeRel, LastIndex;
    var states := RunRefines(tr.run, tr.events, limit);
    var last := |tr.run| - 1;
    var s := states[last];
    assert Rel(tr.run[last], s) && Rel(tr.run[0], states[0]) && Later(states[0], s);
    var n := End(tr).procs[a].node;
    UpNode(End(tr), s, a);
    Kept(n, a, s);
    FirstLimit(tr, limit, states[0], s, a);
  }

  lemma Kept(n: Node, id: int, s: P.State)
    requires P.Inv(s) && NodeRel(n, id, s)
    ensures n.commit <= LastIndex(n) && n.cfg.limit == s.limit
    ensures forall i, j :: 0 <= i < j < |n.cfg.peers| ==> n.cfg.peers[i] != n.cfg.peers[j]
  {
    hide P.Inv, PhaseRel, RoleRel, Mirror, P.Certified, P.Anchored, LastIndex;
    MemberHistory(s, id);
    LastIs(n, s.at[id].hist);
  }

  lemma FirstLimit(tr: Trace, limit: nat, s: P.State, s': P.State, a: int)
    requires Legal(tr, limit) && Rel(tr.run[0], s) && Rel(End(tr), s') && Later(s, s') && a in End(tr).procs
    ensures s'.limit == limit
  {
    hide Next, P.Inv, NetRel, DiskRel, NodeRel;
    assert ProcRel(tr.run[0].procs[a], a, s);
  }

  /** The apply loop's sections, one turn after another. */
  lemma {:induction false} TurnsRun(tr: Trace, limit: nat, a: int, k: nat) returns (u: Trace)
    requires Legal(tr, limit) && a in End(tr).procs && End(tr).procs[a].Up?
    ensures Legal(u, limit) && GoesOn(tr, u) && End(u).procs == End(tr).procs[a := Up(Turns(End(tr).procs[a].node, k))]
    decreases k
  {
    hide IsRun, Pick, RunEntry, Publish;
    u := tr;
    if k > 0 {
      u := Acts(u, limit, a, PickEntry);
      u := Acts(u, limit, a, ApplyPicked);
      u := Acts(u, limit, a, PublishApplied);
      u := TurnsRun(u, limit, a, k - 1);
    }
  }

  /** What a client sees of a command that was the last to be applied. */
  predicate Effected(s: Store, c: Command) {
    if c.op == SET then c.key in s && s[c.key] == c.value else c.key !in s
  }

  lemma LastEffected(n: Node, id: int, s: P.State, c: Command)
    requires P.Inv(s) && NodeRel(n, id, s) && n.commit <= |s.done| && EntryAt(n, n.commit).Some?
    requires var e := EntryAt(n, n.commit).value; e.op == c.op && e.key == c.key && e.value == c.value && (c.op == SET || c.op == DELETE)
    ensures Effected(Fold(s.done[..n.commit]), c)
  {
    hide P.Inv, PhaseRel, CfgRel, RoleRel, Mirror, P.Certified, P.Anchored, EntryAt, Fold, Apply;
    MemberHistory(s, id);
    EntryIs(n, s.at[id].hist, n.commit);
    AppliedIs(n, id, s, n.commit);
    FoldStep(s.done, n.commit - 1);
    OnlyItsKey(Fold(s.done[..n.commit - 1]), s.done[n.commit - 1], c.key);
  }

  /** A node that has committed a command as its last entry comes to hold its effect. */
  lemma Effects(tr: Trace, limit: nat, a: int, c: Command) returns (u: Trace)
    requires Legal(tr, limit) && a in End(tr).procs && End(tr).procs[a].Up? && End(tr).procs[a].node.phase == Idle
    requires var n := End(tr).procs[a].node; EntryAt(n, n.commit).Some?
    requires var n := End(tr).procs[a].node; var e := EntryAt(n, n.commit).value;
      e.op == c.op && e.key == c.key && e.value == c.value && (c.op == SET || c.op == DELETE)
    ensures Legal(u, limit) && GoesOn(tr, u)
    ensures exists s :: Effected(s, c) && End(u).procs == End(tr).procs[a := Up(AppliedAll(End(tr).procs[a].node, s))]
  {
    hide IsRun, P.Inv, NodeRel, Rel, Turns, EntryAt, Fold, Effected;
    var n := End(tr).procs[a].node;
    Facts(tr, limit, a);
    var k := n.commit - n.applied;
    var s := Reached(tr.run, tr.events, limit, |tr.run| - 1, a);
    UpNode(End(tr), s, a);
    TurnsApply(n, a, s, k);
    LastEffected(n, a, s, c);
    u := TurnsRun(tr, limit, a, k);
    assert Turns(n, k) == AppliedAll(n, Fold(s.done[..n.commit]));
  }

  function AppliedAll(n: Node, s: Store): Node {
    n.(applied := n.commit, store := s, disk := n.disk.(stable := n.disk.stable.(applied := n.commit)))
  }

  // --------------------------------------------------------------- the whole

  /** A command any leader would accept. */
  predicate Acceptable(c: Command, limit: nat) {
    WellFormed(c) && |c.value| <= limit
  }

  /** The node leads, has committed and applied all it has, and the last of it is c. */
  predicate Served(cl: Cluster, a: int, c: Command) {
    && a in cl.procs && cl.procs[a].Up?
    && var n := cl.procs[a].node;
    && n.role == Leader && n.applied == n.commit == LastIndex(n) && Effected(n.store, c)
    && EntryAt(n, LastIndex(n)) == Some(LogEntry(LastIndex(n), n.term, c.op, c.key, c.value))
  }

  /** A leader that reaches a majority serves a command. */
  lemma Serves(tr: Trace, limit: nat, a: int, q: set<int>, c: Command) returns (u: Trace)
    requires Legal(tr, limit) && P.Quorum(End(tr).procs.Keys, q) && a in q && |End(tr).procs.Keys| >= 2
    requires Ready(End(tr), a, q - {a}) && End(tr).procs[a].node.phase == Idle && Acceptable(c, limit)
    ensures Legal(u, limit) && GoesOn(tr, u) && Served(End(u), a, c) && End(u).procs.Keys == End(tr).procs.Keys
    ensures forall x :: x in End(tr).procs && x !in q ==> End(u).procs[x] == End(tr).procs[x]
  {
    hide IsRun, P.Quorum, LastIndex, EntryAt, TermAt, Propose, Effected;
    var l := End(tr).procs[a].node;
    Bounds(tr, limit, a);
    ProposeIff(l, c);
    ProposalStored(tr.run, tr.events, limit, |tr.run| - 1, a, c);
    Proposed(l, c);
    u := Acts(tr, limit, a, Client(c));
    var l1 := End(u).procs[a].node;
    assert Ready(End(u), a, q - {a}) && End(u).procs.Keys == End(tr).procs.Keys;
    u := LevelsAll(u, limit, a, q - {a});
    var l2 := End(u).procs[a].node;
    SameLookups(l1, l2);
    TermOfEntry(l1, LastIndex(l1));
    CommitsLast(u, limit, a, q);
    var v := Effects(u, limit, a, c);
    SameLookups(l2, End(v).procs[a].node);
    u := v;
  }

  lemma Proposed(l: Node, c: Command)
    ensures var l' := Propose(l, c).node; l' == l.(log := l'.log, disk := l'.disk) && l'.disk.snap == l.disk.snap
  {
  }

  lemma SameLookups(n: Node, n': Node)
    requires n'.log == n.log && n'.meta == n.meta
    ensures LastIndex(n') == LastIndex(n) && forall i :: EntryAt(n', i) == EntryAt(n, i) && TermAt(n', i) == TermAt(n, i)
  {
  }

  /** The foremost idle node of a running majority comes to lead, and serves. */
  lemma ElectsAndServes(tr: Trace, limit: nat, q: set<int>, a: int, c: Command) returns (u: Trace)
    requires Legal(tr, limit) && P.Quorum(End(tr).procs.Keys, q) && Foremost(End(tr), q, a) && |End(tr).procs.Keys| >= 2
    requires End(tr).procs[a].node.role != Leader && (forall v :: v in q ==> End(tr).procs[v].node.phase == Idle) && Acceptable(c, limit)
    ensures Legal(u, limit) && GoesOn(tr, u) && Served(End(u), a, c) && End(u).procs.Keys == End(tr).procs.Keys
    ensures forall x :: x in End(tr).procs && x !in q ==> End(u).procs[x] == End(tr).procs[x]
  {
    hide IsRun, P.Quorum, LastIndex, EntryAt, Effected, BecomeLeader, Recent, Served;
    var t: nat, g;
    u, t, g := Elects(tr, limit, q, a);
    var n := StoodIn(End(tr).procs[a].node, t).(granted := g);
    Promoted(n);
    forall v | v in q - {a}
      ensures v in End(u).procs && End(u).procs[v].Up?
      ensures AtRest(End(u).procs[a].node, End(u).procs[v].node) && Reachable(End(u).procs[a].node, End(u).procs[v].node)
    {
      Facts(u, limit, a);
      ElectedCursorReaches(u.run, u.events, limit, |u.run| - 1, a, v);
    }
    u := Serves(u, limit, a, q, c);
  }

  lemma Promoted(n: Node)
    ensures var l := BecomeLeader(n).node; l.role == Leader && l.term == n.term && l.phase == n.phase && l.cfg == n.cfg
    ensures forall p :: p in n.cfg.peers ==> At(BecomeLeader(n).node.next, p) == LastIndex(BecomeLeader(n).node) + 1
  {
    FreshCursors(n);
  }

  /** All of q start again. */
  lemma {:induction false} RestartsAll(tr: Trace, limit: nat, q: set<int>) returns (u: Trace)
    requires Legal(tr, limit) && q <= End(tr).procs.Keys
    ensures Legal(u, limit) && GoesOn(tr, u) && End(u).procs.Keys == End(tr).procs.Keys
    ensures forall x :: x in End(tr).procs && x !in q ==> End(u).procs[x] == End(tr).procs[x]
    ensures forall x :: x in q ==> x in End(u).procs && End(u).procs[x].Up?
    ensures forall x :: x in q ==> End(u).procs[x].node.role == Follower && End(u).procs[x].node.phase == Idle
    decreases q
  {
    hide IsRun;
    u := tr;
    if q != {} {
      var v := P.Pick(q);
      u := RestartsAll(tr, limit, q - {v});
      u := Restarts(u, limit, v);
    }
  }

  /** Whatever has happened to a cluster of two or more, any majority of it can,
      with nobody else's help, serve any command: there is a continuation of the
      run in which one of them leads with the command committed and applied. */
  lemma AlwaysServes(tr: Trace, limit: nat, q: set<int>, c: Command) returns (u: Trace, a: int)
    requires Legal(tr, limit) && P.Quorum(End(tr).procs.Keys, q) && |End(tr).procs.Keys| >= 2 && Acceptable(c, limit)
    ensures Legal(u, limit) && GoesOn(tr, u) && a in q && Served(End(u), a, c) && End(u).procs.Keys == End(tr).procs.Keys
    ensures forall x :: x in End(tr).procs && x !in q ==> End(u).procs[x] == End(tr).procs[x]
  {
    hide IsRun, Recent, Effected, Served;
    u := RestartsAll(tr, limit, q);
    assert forall v :: v in q ==> v in UpNodes(End(u));
    a := MostRecent(UpNodes(End(u)), q);
    assert Foremost(End(u), q, a);
    u := ElectsAndServes(u, limit, q, a, c);
  }
}
