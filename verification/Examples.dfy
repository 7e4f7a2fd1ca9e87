/** Explicit runs of three nodes that end where a promise fails: a leader that
    can no longer repair a follower, a store that an overtaken entry leaves
    wrong, a match index that falls, and an accepted command in whose place
    another is applied. Answers are lost in them; nothing is duplicated or
    reordered. */
module Examples {
  import opened Entries
  import opened KvStore
  import opened Disk
  import opened Node
  import opened Cluster
  import opened Relation
  import opened Snapshots
  import opened RaftNode
  import opened Proposals
  import opened CatchUp
  import Traces
  import opened Scripts

  // -------------------------------------------------------------- the start

  function Cfg(id: int): Config {
    Config(id, if id == 0 then [1, 2] else if id == 1 then [0, 2] else [0, 1], 1, LIMIT)
  }

  function Boots(id: int): Node {
    Node(Cfg(id), Follower, 0, NO_VOTE, UNKNOWN_LEADER, [], Boundary(0, 0), 0, 0, map[], map[], {}, map[], Idle, BLANK)
  }

  lemma BootIs(id: int)
    ensures Recover(Cfg(id), BLANK) == Booted(Boots(id), [])
  {
  }

  lemma StartOne(run: seq<Cluster>, events: seq<Event>, id: int) returns (run': seq<Cluster>, events': seq<Event>)
    requires IsRun(run, events, LIMIT) && id in run[|run| - 1].procs && run[|run| - 1].procs[id] == Down(Cfg(id), BLANK)
    ensures IsRun(run', events', LIMIT) && run'[|run'| - 1].procs == run[|run| - 1].procs[id := Up(Boots(id))]
  {
    hide Recover, Init;
    BootIs(id);
    var c := run[|run| - 1];
    var c' := c.(procs := c.procs[id := Up(Boots(id))]);
    assert Next(c, Start(id), c');
    Traces.Extended(run, events, LIMIT, Start(id), c');
    run', events' := run + [c'], events + [Start(id)];
  }

  lemma Started() returns (run: seq<Cluster>, events: seq<Event>)
    ensures Reaches(run, events, map[0 := Boots(0), 1 := Boots(1), 2 := Boots(2)], {})
  {
    var down := map[0 := Down(Cfg(0), BLANK), 1 := Down(Cfg(1), BLANK), 2 := Down(Cfg(2), BLANK)];
    var c := Cluster(down, {}, {});
    assert Init(c, LIMIT) by {
      assert c.procs.Keys == {0, 1, 2};
      forall id | id in down ensures Configured({0, 1, 2}, LIMIT, id, Cfg(id)) {
        assert (set p | p in Cfg(id).peers) == {0, 1, 2} - {id};
      }
    }
    hide Init, Next, Boots;
    run, events := StartOne([c], [], 0);
    run, events := StartOne(run, events, 1);
    run, events := StartOne(run, events, 2);
  }

  // ----------------------------------------- node 0 leads term 1 on 1's vote

  const VOTE1 := VoteReq(1, 0, 0, 0)
  const NOOP1 := LogEntry(1, 1, NOOP, "", "")
  const E2 := LogEntry(2, 1, SET, "a", "1")
  const E3 := LogEntry(3, 1, SET, "a", "2")
  const FIRST := Command(SET, "a", "1")
  const SECOND := Command(SET, "a", "2")

  function Stands0(): Node { Stamp(Boots(0).(term := 1, votedFor := 0, role := Candidate), 0, 0) }

  /** Node 0 leading term 1, with cursors and matches for nodes 1 and 2. */
  function Lead(log: Log, n1: nat, n2: nat, m1: nat, m2: nat, commit: nat): Node {
    Stamp(Has(Stands0(), log).(role := Leader, leader := 0, granted := {1}, next := map[1 := n1, 2 := n2], match_ := map[1 := m1, 2 := m2]),
          commit, 0)
  }

  /** A follower in term 1; node 1 has voted for node 0. */
  function Peer(id: int, leader: int, log: Log, commit: nat): Node {
    Stamp(Has(Boots(id).(term := 1, votedFor := if id == 1 then 0 else NO_VOTE, leader := leader), log), commit, 0)
  }

  lemma PeersOf0(v: nat)
    ensures Uniform([1, 2], v) == map[1 := v, 2 := v]
  {
    assert [1, 2][..1] == [1] && [1][..0] == [];
  }

  lemma Election1()
    ensures React(Boots(0), Timeout).node == Stands0() && VoteAsk(1, VOTE1) in React(Boots(0), Timeout).reply
    ensures var o := React(Boots(1), Receive(VoteAsk(1, VOTE1)));
      o.node == Peer(1, UNKNOWN_LEADER, [], 0) && o.reply == {VoteAnswer(1, 0, VOTE1, VoteResp(1, true))}
  {
    assert VoteAsk(1, VOTE1) in Asks(Boots(0), VOTE1);
  }

  lemma Wins1()
    ensures React(Stands0(), Receive(VoteAnswer(1, 0, VOTE1, VoteResp(1, true)))).node == Lead([NOOP1], 2, 2, 0, 0, 0)
  {
    PeersOf0(2);
    PeersOf0(0);
    var n1 := Stands0().(granted := {} + {1});
    assert n1.granted == {1} && |n1.granted| == 1;
  }

  function Opening(): map<int, Node> {
    map[0 := Lead([NOOP1], 2, 2, 0, 0, 0), 1 := Peer(1, UNKNOWN_LEADER, [], 0), 2 := Boots(2)]
  }

  lemma Elected() returns (run: seq<Cluster>, events: seq<Event>)
    ensures Reaches(run, events, Opening(), {})
  {
    hide React, Reaches, Stands0, Lead, Peer, Boots;
    Election1();
    Wins1();
    Ids();
    run, events := Started();
    var ask, answer := VoteAsk(1, VOTE1), VoteAnswer(1, 0, VOTE1, VoteResp(1, true));
    var ns := map[0 := Boots(0), 1 := Boots(1), 2 := Boots(2)];
    run, events := Act(run, events, ns, {}, 0, Timeout, Stands0(), {ask});
    ns := ns[0 := Stands0()];
    run, events := Act(run, events, ns, {ask}, 1, Receive(ask), Peer(1, UNKNOWN_LEADER, [], 0), {answer});
    ns := ns[1 := Peer(1, UNKNOWN_LEADER, [], 0)];
    run, events := Act(run, events, ns, {answer}, 0, Receive(answer), Lead([NOOP1], 2, 2, 0, 0, 0), {});
    assert ns[0 := Lead([NOOP1], 2, 2, 0, 0, 0)] == Opening();
  }

  lemma Ids()
    ensures Boots(0).cfg.id == 0 && Stands0().cfg.id == 0 && Boots(1).cfg.id == 1
  {
  }

  // ----------------------------------------------- what the three runs share

  lemma Shapes(log: Log, n1: nat, n2: nat, m1: nat, m2: nat, commit: nat)
    requires Indexed(log) && commit <= |log|
    ensures var l := Lead(log, n1, n2, m1, m2, commit);
      && Plain(l) && SuffixOf(l.log, l.meta, log) && l.role == Leader && l.cfg == Cfg(0) && l.term == 1 && l.log == log && l.commit == commit && l.applied == 0
      && l.next == map[1 := n1, 2 := n2] && l.match_ == map[1 := m1, 2 := m2] && l.phase == Idle && l.store == map[]
  {
    PlainLog(Lead(log, n1, n2, m1, m2, commit));
  }

  lemma PeerShapes(id: int, leader: int, log: Log, commit: nat)
    requires Indexed(log) && commit <= |log|
    ensures var f := Peer(id, leader, log, commit);
      && Plain(f) && SuffixOf(f.log, f.meta, log) && f.role == Follower && f.leader == leader && f.cfg == Cfg(id) && f.term == 1 && f.log == log && f.commit == commit
      && f.applied == 0 && f.phase == Idle && f.store == map[]
  {
    PlainLog(Peer(id, leader, log, commit));
  }

  /** Node 1 holds nothing, so it refuses a request that assumes the no-op. */
  lemma Probe1(run: seq<Cluster>, events: seq<Event>, ns: map<int, Node>, log: Log) returns (run': seq<Cluster>, events': seq<Event>)
    requires Reaches(run, events, ns, {}) && Indexed(log) && log != [] && 0 in ns && 1 in ns
    requires ns[0] == Lead(log, 2, 2, 0, 0, 0) && ns[1] == Peer(1, UNKNOWN_LEADER, [], 0)
    ensures Reaches(run', events', ns[1 := Peer(1, 0, [], 0)][0 := Lead(log, 1, 2, 0, 0, 0)], {}) && run <= run' && events <= events'
  {
    hide Reaches, HandleAppend, HandleAppendResp, BuildAppend;
    var l, f := ns[0], ns[1];
    Shapes(log, 2, 2, 0, 0, 0);
    PeerShapes(1, UNKNOWN_LEADER, [], 0);
    Builds(l, log, 1, 1);
    var r := AppendReq(1, 0, 1, TermIn(log, 1), log[1..], 0);
    Refuses(f, [], r);
    StepsBack(l, 1, r);
    assert map[1 := 2, 2 := 2][1 := 1] == map[1 := 1 as nat, 2 := 2];
    run', events' := Exchanges(run, events, ns, 0, 1, r, Peer(1, 0, [], 0), AppendResp(1, false), Lead(log, 1, 2, 0, 0, 0));
  }

  /** So does node 2, which first adopts the term. */
  lemma Probe2(run: seq<Cluster>, events: seq<Event>, ns: map<int, Node>, log: Log, n1: nat, m1: nat, commit: nat)
    returns (run': seq<Cluster>, events': seq<Event>)
    requires Reaches(run, events, ns, {}) && Indexed(log) && log != [] && commit <= |log| && 0 in ns && 2 in ns
    requires ns[0] == Lead(log, n1, 2, m1, 0, commit) && ns[2] == Boots(2)
    ensures Reaches(run', events', ns[2 := Peer(2, 0, [], 0)][0 := Lead(log, n1, 1, m1, 0, commit)], {}) && run <= run' && events <= events'
  {
    hide Reaches, HandleAppend, HandleAppendResp, BuildAppend;
    var l, f := ns[0], ns[2];
    Shapes(log, n1, 2, m1, 0, commit);
    PeerShapes(2, 0, [], 0);
    Builds(l, log, 2, 1);
    var r := AppendReq(1, 0, 1, TermIn(log, 1), log[1..], commit);
    Adopts(f, r);
    Refuses(Peer(2, 0, [], 0), [], r);
    StepsBack(l, 2, r);
    assert map[1 := n1, 2 := 2][2 := 1] == map[1 := n1, 2 := 1];
    run', events' := Exchanges(run, events, ns, 0, 2, r, Peer(2, 0, [], 0), AppendResp(1, false), Lead(log, n1, 1, m1, 0, commit));
  }

  lemma Counts2(m1: nat, x: nat)
    requires m1 < x
    ensures 1 + Matched(Cfg(0).peers, map[1 := m1, 2 := x], x) >= Majority(Cfg(0))
  {
    assert [1, 2][1..] == [2] && [2][1..] == [];
    assert Matched([2], map[1 := m1, 2 := x], x) == 1;
  }

  /** Node 2 takes all of the log; with it the leader has a majority. */
  lemma Fill2(run: seq<Cluster>, events: seq<Event>, ns: map<int, Node>, log: Log, n1: nat, m1: nat, commit: nat)
    returns (run': seq<Cluster>, events': seq<Event>)
    requires Reaches(run, events, ns, {}) && Indexed(log) && Loadable(log) && commit < |log| && m1 < |log| && log[|log| - 1].term == 1
    requires 0 in ns && 2 in ns && ns[0] == Lead(log, n1, 1, m1, 0, commit) && ns[2] == Peer(2, 0, [], 0)
    ensures Reaches(run', events', ns[2 := Peer(2, 0, log, commit)][0 := Lead(log, n1, |log| + 1, m1, |log|, |log|)], {})
    ensures run <= run' && events <= events'
  {
    hide Reaches, HandleAppend, HandleAppendResp, BuildAppend, Loadable, Matched;
    var l, f := ns[0], ns[2];
    Shapes(log, n1, 1, m1, 0, commit);
    PeerShapes(2, 0, [], 0);
    Builds(l, log, 2, 0);
    assert log[0..] == log && [] + log == log;
    var r := AppendReq(1, 0, 0, 0, log, commit);
    Takes(f, r);
    var m := map[1 := m1, 2 := 0][2 := |log|];
    assert m == map[1 := m1, 2 := |log|] && map[1 := n1, 2 := 1][2 := |log| + 1] == map[1 := n1, 2 := |log| + 1];
    Counts2(m1, |log|);
    Commits(l, 2, r, m);
    run', events' := Exchanges(run, events, ns, 0, 2, r, Peer(2, 0, log, commit), AppendResp(1, true),
                               Lead(log, n1, |log| + 1, m1, |log|, |log|));
  }

  /** Node 1 takes the rest of the log, with the commit index; its answer is lost. */
  lemma Fill1Lost(run: seq<Cluster>, events: seq<Event>, ns: map<int, Node>, log: Log, k: nat, n2: nat, m1: nat, m2: nat)
    returns (run': seq<Cluster>, events': seq<Event>)
    requires Reaches(run, events, ns, {}) && Indexed(log) && k < |log| && Loadable(log[k..]) && 0 in ns && 1 in ns
    requires ns[0] == Lead(log, k + 1, n2, m1, m2, |log|) && ns[1] == Peer(1, 0, log[..k], 0)
    ensures Reaches(run', events', ns[1 := Peer(1, 0, log, |log|)], {}) && run <= run' && events <= events'
  {
    hide Reaches, HandleAppend, BuildAppend, Loadable;
    var l, f := ns[0], ns[1];
    Shapes(log, k + 1, n2, m1, m2, |log|);
    PeerShapes(1, 0, log[..k], 0);
    Builds(l, log, 1, k);
    assert log[..k] + log[k..] == log;
    var r := AppendReq(1, 0, k, TermIn(log, k), log[k..], |log|);
    Takes(f, r);
    run', events' := Loses(run, events, ns, 0, 1, r, Peer(1, 0, log, |log|));
  }

  const LOG2 := [NOOP1, E2]
  const LOG3 := [NOOP1, E2, E3]

  lemma Propose2(run: seq<Cluster>, events: seq<Event>, ns: map<int, Node>, n1: nat, n2: nat, m1: nat, m2: nat, commit: nat)
    returns (run': seq<Cluster>, events': seq<Event>)
    requires Reaches(run, events, ns, {}) && 0 in ns && ns[0] == Lead([NOOP1], n1, n2, m1, m2, commit) && commit <= 1
    ensures Reaches(run', events', ns[0 := Lead(LOG2, n1, n2, m1, m2, commit)], {}) && run <= run' && events' == events + [Run(0, Client(FIRST))]
  {
    hide Reaches, React;
    Shapes([NOOP1], n1, n2, m1, m2, commit);
    Proposes(ns[0], FIRST);
    assert [NOOP1] + [E2] == LOG2;
    run', events' := Act(run, events, ns, {}, 0, Client(FIRST), Lead(LOG2, n1, n2, m1, m2, commit), {});
  }

  lemma Propose3(run: seq<Cluster>, events: seq<Event>, ns: map<int, Node>, n1: nat, n2: nat, m1: nat, m2: nat, commit: nat)
    returns (run': seq<Cluster>, events': seq<Event>)
    requires Reaches(run, events, ns, {}) && 0 in ns && ns[0] == Lead(LOG2, n1, n2, m1, m2, commit) && commit <= 2
    ensures Reaches(run', events', ns[0 := Lead(LOG3, n1, n2, m1, m2, commit)], {}) && run <= run' && events <= events'
  {
    hide Reaches, React;
    Shapes(LOG2, n1, n2, m1, m2, commit);
    Proposes(ns[0], SECOND);
    assert LOG2 + [E3] == LOG3;
    run', events' := Act(run, events, ns, {}, 0, Client(SECOND), Lead(LOG3, n1, n2, m1, m2, commit), {});
  }

  // ------------------------------------- a follower that cannot be repaired

  /** Node 1, compacted through the no-op. */
  function Stalled(): Node { Compacted(Stamp(Peer(1, 0, [NOOP1], 1), 1, 1)) }

  /** The leader, with an entry node 1 lacks, no snapshot and node 1's cursor at 1. */
  function Stalling(): Node { Lead(LOG2, 1, 2, 0, 1, 1) }

  lemma StallPair()
    ensures StuckPair(Stalling(), Stalled()) && LastIndex(Stalled()) == 1 && LastIndex(Stalling()) == 2
  {
  }

  /** Node 1 takes the no-op with the commit index, its answer is lost, and it
      applies, snapshots and compacts; the leader appends a write. Its cursor
      for node 1 is still at 1 and it has no snapshot: as long as that is so, no
      number of exchanges brings node 1 level. */
  lemma ReachedStall() returns (run: seq<Cluster>, events: seq<Event>)
    ensures IsRun(run, events, LIMIT) && 0 in run[|run| - 1].procs && 1 in run[|run| - 1].procs
    ensures run[|run| - 1].procs[0] == Up(Stalling()) && run[|run| - 1].procs[1] == Up(Stalled())
    ensures AtRest(Stalling(), Stalled()) && !Reachable(Stalling(), Stalled())
    ensures forall k: nat :: var r := Rounds(Stalling(), Stalled(), k); !r.Done? && LastIndex(r.f) < LastIndex(r.l)
  {
    hide Reaches, React, Rounds, Lead, Peer, LastIndexFor;
    StallPair();
    var log := [NOOP1];
    run, events := Elected();
    var ns := Opening();
    run, events := Probe1(run, events, ns, log);
    ns := ns[1 := Peer(1, 0, [], 0)][0 := Lead(log, 1, 2, 0, 0, 0)];
    run, events := Probe2(run, events, ns, log, 1, 0, 0);
    ns := ns[2 := Peer(2, 0, [], 0)][0 := Lead(log, 1, 1, 0, 0, 0)];
    run, events := Fill2(run, events, ns, log, 1, 0, 0);
    ns := ns[2 := Peer(2, 0, log, 0)][0 := Lead(log, 1, 2, 0, 1, 1)];
    assert log[..0] == [] && log[0..] == log;
    run, events := Fill1Lost(run, events, ns, log, 0, 2, 0, 1);
    var f := Peer(1, 0, log, 1);
    ns := ns[1 := f];
    PeerShapes(1, 0, log, 1);
    assert f.(store := map[]) == f;
    run, events := ApplyNext(run, events, ns, 1, map[]);
    f := Stamp(f, 1, 1);
    ns := ns[1 := f];
    run, events := SnapshotNow(run, events, ns, 1);
    ns := ns[1 := Compacted(f)];
    run, events := Propose2(run, events, ns, 1, 2, 0, 1, 1);
    ns := ns[0 := Stalling()];
    assert 0 in ns && 1 in ns && ns[1] == Stalled();
    Last(run, events, ns, {});
    forall k: nat ensures var r := Rounds(Stalling(), Stalled(), k); !r.Done? && LastIndex(r.f) < LastIndex(r.l) {
      Stuck(Stalling(), Stalled(), k);
      SameLogs(Stalling(), Stalled(), Rounds(Stalling(), Stalled(), k).l, Rounds(Stalling(), Stalled(), k).f);
    }
  }

  // ---------------------------------------- an entry overtaken by an install

  const ONE: Store := map["a" := "1"]
  const TWO: Store := map["a" := "2"]
  const IMAGE3 := Snapshot(3, 1, Image(TWO))
  const INSTALL3 := InstallReq(1, 0, 3, 1, Image(TWO))

  lemma Stores()
    ensures TryApply(map[], NOOP1, LIMIT) == Some(map[]) && TryApply(map[], E2, LIMIT) == Some(ONE)
    ensures TryApply(ONE, E3, LIMIT) == Some(TWO) && TryApply(TWO, E2, LIMIT) == Some(ONE) && Fold(LOG3) == TWO != ONE
  {
    assert ONE["a"] == "1" && TWO["a"] == "2";
    assert map["a" := "1"]["a" := "2"] == TWO && map["a" := "2"]["a" := "1"] == ONE;
    FoldStep(LOG3, 0);
    FoldStep(LOG3, 1);
    FoldStep(LOG3, 2);
    assert LOG3[..0] == [] && LOG3[..3] == LOG3;
  }

  /** Node id, with all of the log committed, applies three entries. */
  lemma ApplyThree(run: seq<Cluster>, events: seq<Event>, ns: map<int, Node>, id: int) returns (run': seq<Cluster>, events': seq<Event>)
    requires Reaches(run, events, ns, {}) && id in ns
    requires var n := ns[id]; Plain(n) && n.log == LOG3 && n.commit == 3 && n.applied == 0 && n.store == map[] && n.phase == Idle && n.cfg.limit == LIMIT
    ensures Reaches(run', events', ns[id := Stamp(ns[id].(store := TWO), 3, 3)], {})
  {
    hide Reaches, TryApply, Fold;
    Stores();
    var n := ns[id];
    var n1 := Stamp(n.(store := map[]), 3, 1);
    var n2 := Stamp(n1.(store := ONE), 3, 2);
    var n3 := Stamp(n2.(store := TWO), 3, 3);
    run', events' := ApplyNext(run, events, ns, id, map[]);
    run', events' := ApplyNext(run', events', ns[id := n1], id, ONE);
    run', events' := ApplyNext(run', events', ns[id := n1][id := n2], id, TWO);
    assert ns[id := n1][id := n2][id := n3] == ns[id := Stamp(n.(store := TWO), 3, 3)];
  }

  /** Node 1 with all of the log committed, the no-op applied and SET a 1 picked. */
  function Picked1(): Node { Stamp(Peer(1, 0, LOG3, 3), 3, 1).(phase := Picked(E2)) }

  function Installed1(): Node {
    Stamp(Has(Peer(1, 0, LOG3, 3), []), 3, 3).(meta := Boundary(3, 1), store := TWO, phase := Picked(E2),
      disk := Disk(Stable(1, 0, 3, 3), [], Some(IMAGE3)))
  }

  function Overtaken1(): Node { Installed1().(store := ONE, phase := Stopped) }

  function Compact3(): Node { Compacted(Stamp(Lead(LOG3, 1, 4, 0, 3, 3).(store := TWO), 3, 3)) }

  lemma KeepsNone(n: Node)
    requires n.log == LOG3 && n.meta == Boundary(0, 0) && n.disk.log == LOG3
    ensures KeptSuffix(n, INSTALL3) == Some([]) && PerformAll(n.disk, CutWrites(n, INSTALL3)) == n.disk.(log := [])
  {
    assert LOG3[3..] == [];
    assert LOG3[1..] == [E2, E3] && [E2, E3][1..] == [E3] && [E3][1..] == [];
    assert FirstFrom(LOG3, 4) == 3;
    TwoWrites(n.disk, CompactLog(3), CompactLog(3));
  }

  lemma InstallsOver()
    ensures React(Picked1(), Receive(InstallAsk(1, INSTALL3))).node == Installed1()
  {
    hide InstallInTerm, PerformAll, KeptSuffix, CutWrites;
    KeepsNone(Picked1());
    InstallUnfolds(Picked1(), INSTALL3, []);
  }

  lemma Overtakes()
    ensures React(Installed1(), ApplyPicked).node == Installed1().(store := ONE, phase := Applied(E2))
    ensures React(Installed1().(store := ONE, phase := Applied(E2)), PublishApplied).node == Overtaken1()
  {
    hide TryApply, Fold;
    Stores();
  }

  lemma Sends3()
    ensures Compact3().disk.snap == Some(IMAGE3) && BuildInstall(Compact3(), 1, Some(IMAGE3)) == Some(INSTALL3)
    ensures Compact3().cfg.id == 0 && Picked1().cfg.id == 1 && NoSnapshotRunning(Picked1())
  {
  }

  /** All of the log committed through node 2, node 1 with nothing. */
  lemma Committed3() returns (run: seq<Cluster>, events: seq<Event>, ns: map<int, Node>)
    ensures Reaches(run, events, ns, {}) && ns.Keys == {0, 1, 2} && ns[0] == Lead(LOG3, 1, 4, 0, 3, 3) && ns[1] == Peer(1, 0, [], 0)
  {
    hide Reaches, Lead, Peer;
    run, events := Elected();
    ns := Opening();
    run, events := Propose2(run, events, ns, 2, 2, 0, 0, 0);
    ns := ns[0 := Lead(LOG2, 2, 2, 0, 0, 0)];
    run, events := Propose3(run, events, ns, 2, 2, 0, 0, 0);
    ns := ns[0 := Lead(LOG3, 2, 2, 0, 0, 0)];
    run, events := Probe1(run, events, ns, LOG3);
    ns := ns[1 := Peer(1, 0, [], 0)][0 := Lead(LOG3, 1, 2, 0, 0, 0)];
    run, events := Probe2(run, events, ns, LOG3, 1, 0, 0);
    ns := ns[2 := Peer(2, 0, [], 0)][0 := Lead(LOG3, 1, 1, 0, 0, 0)];
    run, events := Fill2(run, events, ns, LOG3, 1, 0, 0);
    ns := ns[2 := Peer(2, 0, LOG3, 0)][0 := Lead(LOG3, 1, 4, 0, 3, 3)];
  }

  /** Two nodes that have both applied index 3 end with different stores: node 1
      picked SET a 1, a snapshot with a = 2 overtook it, and it was then applied. */
  lemma ReachedOvertaken() returns (run: seq<Cluster>, events: seq<Event>)
    ensures IsRun(run, events, LIMIT) && 0 in run[|run| - 1].procs && 1 in run[|run| - 1].procs
    ensures run[|run| - 1].procs[0] == Up(Compact3()) && run[|run| - 1].procs[1] == Up(Overtaken1())
    ensures Compact3().applied == 3 && Compact3().store == TWO == Fold(LOG3)
    ensures Overtaken1().applied == 3 && Overtaken1().store == ONE != TWO
  {
    hide Reaches, React, Lead, Peer, Fold, TryApply;
    Stores();
    var ns;
    run, events, ns := Committed3();
    assert LOG3[..0] == [] && LOG3[0..] == LOG3;
    run, events := Fill1Lost(run, events, ns, LOG3, 0, 4, 0, 3);
    var f := Peer(1, 0, LOG3, 3);
    ns := ns[1 := f];
    PeerShapes(1, 0, LOG3, 3);
    assert f.(store := map[]) == f;
    run, events := ApplyNext(run, events, ns, 1, map[]);
    f := Stamp(f, 3, 1);
    ns := ns[1 := f];
    Picks(f);
    run, events := Act(run, events, ns, {}, 1, PickEntry, Picked1(), {});
    ns := ns[1 := Picked1()];
    Shapes(LOG3, 1, 4, 0, 3, 3);
    run, events := ApplyThree(run, events, ns, 0);
    var l := Stamp(ns[0].(store := TWO), 3, 3);
    ns := ns[0 := l];
    run, events := SnapshotNow(run, events, ns, 0);
    ns := ns[0 := Compact3()];
    run, events := Overtaking(run, events, ns);
    ns := ns[1 := Overtaken1()];
    assert 0 in ns && 1 in ns;
    Last(run, events, ns, {});
  }

  lemma Overtaking(run: seq<Cluster>, events: seq<Event>, ns: map<int, Node>) returns (run': seq<Cluster>, events': seq<Event>)
    requires Reaches(run, events, ns, {}) && 0 in ns && 1 in ns && ns[0] == Compact3() && ns[1] == Picked1()
    ensures Reaches(run', events', ns[1 := Overtaken1()], {})
  {
    hide Reaches, React, Compact3, Picked1, Installed1, Overtaken1, BuildInstall;
    Sends3();
    run', events' := Ships(run, events, ns, 0, 1, IMAGE3, INSTALL3);
    InstallsOver();
    Overtakes();
    var ask, f := InstallAsk(1, INSTALL3), Installed1().(store := ONE, phase := Applied(E2));
    run', events' := Act(run', events', ns, {ask}, 1, Receive(ask), Installed1(), {});
    run', events' := Act(run', events', ns[1 := Installed1()], {}, 1, ApplyPicked, f, {});
    run', events' := Act(run', events', ns[1 := Installed1()][1 := f], {}, 1, PublishApplied, Overtaken1(), {});
    assert ns[1 := Installed1()][1 := f][1 := Overtaken1()] == ns[1 := Overtaken1()];
  }

  // --------------------------------------------------- a match index that falls

  const IMAGE1 := Snapshot(1, 1, Image(map[]))
  const INSTALL1 := InstallReq(1, 0, 1, 1, Image(map[]))

  /** The leader, compacted through the no-op, with node 1's cursor at n1. */
  function Short0(n1: nat): Node { Compacted(Stamp(Lead(LOG3, n1, 4, 2, 3, 3), 3, 1)) }

  /** Node 1, compacted through all of the log. */
  function Full1(): Node { Compacted(Stamp(Peer(1, 0, LOG3, 3).(store := TWO), 3, 3)) }

  function Fallen0(): Node { Short0(1).(match_ := map[1 := 1, 2 := 3], next := map[1 := 2, 2 := 4]) }

  lemma ShortShapes(n1: nat)
    ensures var l := Short0(n1);
      && SuffixOf(l.log, l.meta, LOG3) && l.meta == Boundary(1, 1) && l.role == Leader && l.term == 1 && l.commit == 3 && l.cfg == Cfg(0)
      && l.next == map[1 := n1, 2 := 4] && l.match_ == map[1 := 2, 2 := 3] && l.disk.snap == Some(IMAGE1)
    ensures var f := Full1();
      && SuffixOf(f.log, f.meta, LOG3) && f.meta == Boundary(3, 1) && f.term == 1 && f.role == Follower && f.leader == 0 && f.cfg == Cfg(1)
      && f.applied == 3 && f.phase == Idle
  {
  }

  /** Node 1 has compacted past the entry the request starts from. */
  lemma Steps(run: seq<Cluster>, events: seq<Event>, ns: map<int, Node>, k: nat) returns (run': seq<Cluster>, events': seq<Event>)
    requires Reaches(run, events, ns, {}) && 0 in ns && 1 in ns && ns[0] == Short0(k + 1) && ns[1] == Full1() && 1 <= k <= 2
    ensures Reaches(run', events', ns[0 := Short0(k)], {})
  {
    hide Reaches, HandleAppend, HandleAppendResp, BuildAppend, SuffixOf, Compacted, Full1;
    ShortShapes(k + 1);
    Builds(ns[0], LOG3, 1, k);
    var r := AppendReq(1, 0, k, TermIn(LOG3, k), LOG3[k..], 3);
    Refuses(ns[1], LOG3, r);
    StepsBack(ns[0], 1, r);
    assert map[1 := k + 1, 2 := 4][1 := k] == map[1 := k, 2 := 4];
    assert ns[1].(role := Follower, leader := 0) == ns[1];
    CursorOnly(k);
    run', events' := Exchanges(run, events, ns, 0, 1, r, ns[1], AppendResp(1, false), Short0(k));
    assert ns[1 := ns[1]] == ns;
  }

  lemma CursorOnly(k: nat)
    ensures Short0(k) == Short0(k + 1).(next := map[1 := k, 2 := 4])
  {
  }

  lemma Answers1()
    ensures BuildInstall(Short0(1), 1, Some(IMAGE1)) == Some(INSTALL1)
    ensures var o := React(Full1(), Receive(InstallAsk(1, INSTALL1))); o.node == Full1() && o.reply == {InstallAnswer(1, 0, INSTALL1, InstallResp(1))}
    ensures React(Short0(1), Receive(InstallAnswer(1, 0, INSTALL1, InstallResp(1)))).node == Fallen0()
  {
    hide Compacted, SuffixOf;
    ShortShapes(1);
    assert Full1().(role := Follower, leader := 0) == Full1();
    assert map[1 := 2, 2 := 3][1 := 1] == map[1 := 1 as nat, 2 := 3] && map[1 := 1, 2 := 4][1 := 2] == map[1 := 2 as nat, 2 := 4];
  }

  /** Node 1 takes the first two entries and the leader counts it for them. */
  lemma Fill1(run: seq<Cluster>, events: seq<Event>, ns: map<int, Node>) returns (run': seq<Cluster>, events': seq<Event>)
    requires Reaches(run, events, ns, {}) && 0 in ns && 1 in ns && ns[0] == Lead(LOG2, 1, 2, 0, 0, 0) && ns[1] == Peer(1, 0, [], 0)
    ensures Reaches(run', events', ns[1 := Peer(1, 0, LOG2, 0)][0 := Lead(LOG2, 3, 2, 2, 0, 2)], {})
  {
    hide Reaches, HandleAppend, HandleAppendResp, BuildAppend, Matched;
    var l, f := ns[0], ns[1];
    Shapes(LOG2, 1, 2, 0, 0, 0);
    PeerShapes(1, 0, [], 0);
    Builds(l, LOG2, 1, 0);
    assert LOG2[0..] == LOG2 && [] + LOG2 == LOG2;
    var r := AppendReq(1, 0, 0, 0, LOG2, 0);
    Takes(f, r);
    var m := map[1 := 0, 2 := 0][1 := 2];
    assert m == map[1 := 2, 2 := 0] && map[1 := 1, 2 := 2][1 := 3] == map[1 := 3 as nat, 2 := 2];
    Counts1();
    Commits(l, 1, r, m);
    run', events' := Exchanges(run, events, ns, 0, 1, r, Peer(1, 0, LOG2, 0), AppendResp(1, true), Lead(LOG2, 3, 2, 2, 0, 2));
  }

  lemma Counts1()
    ensures 1 + Matched(Cfg(0).peers, map[1 := 2, 2 := 0], 2) >= Majority(Cfg(0))
  {
    assert [1, 2][1..] == [2];
  }

  /** Node 1 acknowledges two entries, takes the third with its answer lost, and
      compacts all three; the leader compacts the first. Node 1's refusals walk
      the cursor back to the leader's snapshot, whose answer lowers the count. */
  lemma ReachedFall() returns (run: seq<Cluster>, events: seq<Event>)
    ensures IsRun(run, events, LIMIT) && |run| >= 2 && 0 in run[|run| - 2].procs && 0 in run[|run| - 1].procs
    ensures run[|run| - 2].procs[0] == Up(Short0(1)) && run[|run| - 1].procs[0] == Up(Fallen0())
    ensures Short0(1).role == Fallen0().role == Leader && Short0(1).match_[1] == 2 && Fallen0().match_[1] == 1
  {
    hide Reaches, React, Lead, Peer, TryApply, BuildInstall;
    run, events := Elected();
    var ns := Opening();
    run, events := Propose2(run, events, ns, 2, 2, 0, 0, 0);
    ns := ns[0 := Lead(LOG2, 2, 2, 0, 0, 0)];
    run, events := Probe1(run, events, ns, LOG2);
    ns := ns[1 := Peer(1, 0, [], 0)][0 := Lead(LOG2, 1, 2, 0, 0, 0)];
    run, events := Fill1(run, events, ns);
    ns := ns[1 := Peer(1, 0, LOG2, 0)][0 := Lead(LOG2, 3, 2, 2, 0, 2)];
    run, events := Propose3(run, events, ns, 3, 2, 2, 0, 2);
    ns := ns[0 := Lead(LOG3, 3, 2, 2, 0, 2)];
    run, events := Probe2(run, events, ns, LOG3, 3, 2, 2);
    ns := ns[2 := Peer(2, 0, [], 0)][0 := Lead(LOG3, 3, 1, 2, 0, 2)];
    run, events := Fill2(run, events, ns, LOG3, 3, 2, 2);
    ns := ns[2 := Peer(2, 0, LOG3, 2)][0 := Lead(LOG3, 3, 4, 2, 3, 3)];
    assert LOG3[..2] == LOG2 && LOG3[2..] == [E3];
    run, events := Fill1Lost(run, events, ns, LOG3, 2, 4, 2, 3);
    ns := ns[1 := Peer(1, 0, LOG3, 3)];
    run, events := Falling(run, events, ns);
  }

  lemma Falling(run0: seq<Cluster>, events0: seq<Event>, ns0: map<int, Node>) returns (run: seq<Cluster>, events: seq<Event>)
    requires Reaches(run0, events0, ns0, {}) && 0 in ns0 && 1 in ns0
    requires ns0[0] == Lead(LOG3, 3, 4, 2, 3, 3) && ns0[1] == Peer(1, 0, LOG3, 3)
    ensures IsRun(run, events, LIMIT) && |run| >= 2 && 0 in run[|run| - 2].procs && 0 in run[|run| - 1].procs
    ensures run[|run| - 2].procs[0] == Up(Short0(1)) && run[|run| - 1].procs[0] == Up(Fallen0())
    ensures Short0(1).role == Fallen0().role == Leader && Short0(1).match_[1] == 2 && Fallen0().match_[1] == 1
  {
    hide Reaches, React, Lead, Peer, TryApply, BuildInstall, Fold;
    Stores();
    var ns := ns0;
    PeerShapes(1, 0, LOG3, 3);
    Shapes(LOG3, 3, 4, 2, 3, 3);
    run, events := ApplyThree(run0, events0, ns, 1);
    var f := Stamp(ns[1].(store := TWO), 3, 3);
    ns := ns[1 := f];
    run, events := SnapshotNow(run, events, ns, 1);
    ns := ns[1 := Full1()];
    var l := ns[0];
    assert l.(store := map[]) == l;
    run, events := ApplyNext(run, events, ns, 0, map[]);
    ns := ns[0 := Stamp(l, 3, 1)];
    run, events := SnapshotNow(run, events, ns, 0);
    ns := ns[0 := Short0(3)];
    run, events := Steps(run, events, ns, 2);
    ns := ns[0 := Short0(2)];
    run, events := Steps(run, events, ns, 1);
    ns := ns[0 := Short0(1)];
    run, events := Falls(run, events, ns);
  }

  lemma Falls(run0: seq<Cluster>, events0: seq<Event>, ns: map<int, Node>) returns (run: seq<Cluster>, events: seq<Event>)
    requires Reaches(run0, events0, ns, {}) && 0 in ns && 1 in ns && ns[0] == Short0(1) && ns[1] == Full1()
    ensures IsRun(run, events, LIMIT) && |run| >= 2 && 0 in run[|run| - 2].procs && 0 in run[|run| - 1].procs
    ensures run[|run| - 2].procs[0] == Up(Short0(1)) && run[|run| - 1].procs[0] == Up(Fallen0())
    ensures Short0(1).role == Fallen0().role == Leader && Short0(1).match_[1] == 2 && Fallen0().match_[1] == 1
  {
    hide Reaches, React, Compacted, BuildInstall, Full1, SuffixOf, Lead;
    ShortShapes(1);
    Answers1();
    var ask, answer := InstallAsk(1, INSTALL1), InstallAnswer(1, 0, INSTALL1, InstallResp(1));
    run, events := Ships(run0, events0, ns, 0, 1, IMAGE1, INSTALL1);
    run, events := Act(run, events, ns, {ask}, 1, Receive(ask), Full1(), {answer});
    assert ns[1 := Full1()] == ns;
    Last(run, events, ns, {answer});
    var before := run;
    run, events := Act(run, events, ns, {answer}, 0, Receive(answer), Fallen0(), {});
    Last(run, events, ns[0 := Fallen0()], {});
    assert 0 in ns[0 := Fallen0()] && run[|run| - 2] == before[|before| - 1];
  }

  // ----------------------------- an accepted command that another one replaces

  const VOTE2 := VoteReq(2, 1, 0, 0)
  const NOOP2 := LogEntry(1, 2, NOOP, "", "")
  const R2 := LogEntry(2, 2, SET, "a", "2")
  const NEW2 := [NOOP2, R2]

  function Stands1(): Node { Stamp(Peer(1, UNKNOWN_LEADER, [], 0).(term := 2, votedFor := 1, role := Candidate), 0, 0) }

  function Votes2(): Node { Stamp(Boots(2).(term := 2, votedFor := 1), 0, 0) }

  /** Node 1 leading term 2, with the cursor and match of node 0. */
  function Lead1(log: Log, n0: nat, m0: nat, commit: nat): Node {
    Stamp(Has(Stands1(), log).(role := Leader, leader := 1, granted := {2}, next := map[0 := n0, 2 := 2], match_ := map[0 := m0, 2 := 0]), commit, 0)
  }

  /** Node 0, once leader of term 1, following node 1 in term 2. */
  function Yields0(log: Log, commit: nat, applied: nat): Node {
    Stamp(Has(Lead(LOG2, 2, 2, 0, 0, 0), log).(term := 2, votedFor := NO_VOTE, role := Follower, leader := 1), commit, applied)
  }

  lemma PeersOf1(v: nat)
    ensures Uniform([0, 2], v) == map[0 := v, 2 := v]
  {
    assert [0, 2][..1] == [0] && [0][..0] == [];
  }

  lemma Election2()
    ensures var o := React(Peer(1, UNKNOWN_LEADER, [], 0), Timeout); o.node == Stands1() && VoteAsk(2, VOTE2) in o.reply
    ensures var o := React(Boots(2), Receive(VoteAsk(2, VOTE2)));
      o.node == Votes2() && o.reply == {VoteAnswer(2, 1, VOTE2, VoteResp(2, true))}
  {
    assert VoteAsk(2, VOTE2) in Asks(Peer(1, UNKNOWN_LEADER, [], 0), VOTE2);
  }

  lemma Wins2()
    ensures React(Stands1(), Receive(VoteAnswer(2, 1, VOTE2, VoteResp(2, true)))).node == Lead1([NOOP2], 2, 0, 0)
  {
    PeersOf1(2);
    PeersOf1(0);
    var n1 := Stands1().(granted := {} + {2});
    assert n1.granted == {2} && |n1.granted| == 1;
  }

  lemma LeadShapes(log: Log, n0: nat, m0: nat, commit: nat)
    requires Indexed(log) && commit <= |log|
    ensures var l := Lead1(log, n0, m0, commit);
      && Plain(l) && SuffixOf(l.log, l.meta, log) && l.role == Leader && l.cfg == Cfg(1) && l.term == 2 && l.log == log && l.commit == commit
      && l.applied == 0 && l.next == map[0 := n0, 2 := 2] && l.match_ == map[0 := m0, 2 := 0] && l.phase == Idle
  {
    PlainLog(Lead1(log, n0, m0, commit));
  }

  lemma YieldShapes(log: Log, commit: nat, applied: nat)
    requires Indexed(log) && applied <= commit <= |log|
    ensures var f := Yields0(log, commit, applied);
      && Plain(f) && SuffixOf(f.log, f.meta, log) && f.role == Follower && f.leader == 1 && f.cfg == Cfg(0) && f.term == 2 && f.log == log
      && f.commit == commit && f.applied == applied && f.phase == Idle && f.store == map[]
  {
    PlainLog(Yields0(log, commit, applied));
  }

  /** A majority elects node 1, which proposes in its turn. */
  lemma Reelected(run0: seq<Cluster>, events0: seq<Event>, ns0: map<int, Node>) returns (run: seq<Cluster>, events: seq<Event>)
    requires Reaches(run0, events0, ns0, {}) && ns0.Keys == {0, 1, 2} && ns0[1] == Peer(1, UNKNOWN_LEADER, [], 0) && ns0[2] == Boots(2)
    ensures Reaches(run, events, ns0[1 := Lead1(NEW2, 2, 0, 0)][2 := Votes2()], {}) && run0 <= run && events0 <= events
  {
    hide React, Reaches, Lead1, Peer, Boots, Stands1, Votes2;
    Election2();
    Wins2();
    LeadShapes([NOOP2], 2, 0, 0);
    Ids2();
    var ask, answer := VoteAsk(2, VOTE2), VoteAnswer(2, 1, VOTE2, VoteResp(2, true));
    var ns := ns0;
    run, events := Act(run0, events0, ns, {}, 1, Timeout, Stands1(), {ask});
    ns := ns[1 := Stands1()];
    run, events := Act(run, events, ns, {ask}, 2, Receive(ask), Votes2(), {answer});
    ns := ns[2 := Votes2()];
    run, events := Act(run, events, ns, {answer}, 1, Receive(answer), Lead1([NOOP2], 2, 0, 0), {});
    ns := ns[1 := Lead1([NOOP2], 2, 0, 0)];
    Proposes(ns[1], SECOND);
    assert [NOOP2] + [R2] == NEW2;
    Grown();
    run, events := Act(run, events, ns, {}, 1, Client(SECOND), Lead1(NEW2, 2, 0, 0), {});
    assert ns[1 := Lead1(NEW2, 2, 0, 0)] == ns0[1 := Lead1(NEW2, 2, 0, 0)][2 := Votes2()];
  }

  lemma Grown()
    ensures Lead1(NEW2, 2, 0, 0) == Has(Lead1([NOOP2], 2, 0, 0), NEW2)
  {
  }

  lemma Ids2()
    ensures Stands1().cfg.id == 1 && Boots(2).cfg.id == 2 && Peer(1, UNKNOWN_LEADER, [], 0).cfg.id == 1
  {
  }

  /** The other log is cut at its first entry and replaced. */
  lemma Rewrites()
    ensures var o := HandleAppend(Yields0(LOG2, 0, 0), AppendReq(2, 1, 0, 0, NEW2, 0));
      o.node == Yields0(NEW2, 0, 0) && o.reply == AppendResp(2, true)
  {
    hide PerformAll, Appends;
    var f, r := Yields0(LOG2, 0, 0), AppendReq(2, 1, 0, 0, NEW2, 0);
    assert f.(role := Follower, leader := 1) == f;
    assert NEW2[0..] == NEW2;
    assert PlanFrom(f, 0, NEW2, 0) == Plan(1, NEW2);
    assert LOG2[..0] == [] && [] + NEW2 == NEW2;
    var a := CutTo(f, 1);
    assert a.reply && a.node == Has(f, []);
    PerformAppends(a.node.disk, NEW2);
    assert AddAll(a.node, NEW2).node == Yields0(NEW2, 0, 0);
  }

  /** Node 0 refuses the new leader's first request, adopting its term. */
  lemma Probe0(run: seq<Cluster>, events: seq<Event>, ns: map<int, Node>) returns (run': seq<Cluster>, events': seq<Event>)
    requires Reaches(run, events, ns, {}) && 0 in ns && 1 in ns && ns[0] == Lead(LOG2, 2, 2, 0, 0, 0) && ns[1] == Lead1(NEW2, 2, 0, 0)
    ensures Reaches(run', events', ns[0 := Yields0(LOG2, 0, 0)][1 := Lead1(NEW2, 1, 0, 0)], {}) && run <= run' && events <= events'
  {
    hide Reaches, HandleAppend, HandleAppendResp, BuildAppend;
    LeadShapes(NEW2, 2, 0, 0);
    YieldShapes(LOG2, 0, 0);
    Builds(ns[1], NEW2, 0, 1);
    var r := AppendReq(2, 1, 1, 2, NEW2[1..], 0);
    Adopts(ns[0], r);
    Refuses(Yields0(LOG2, 0, 0), LOG2, r);
    StepsBack(ns[1], 0, r);
    assert map[0 := 2, 2 := 2][0 := 1] == map[0 := 1 as nat, 2 := 2];
    run', events' := Exchanges(run, events, ns, 1, 0, r, Yields0(LOG2, 0, 0), AppendResp(2, false), Lead1(NEW2, 1, 0, 0));
  }

  /** It then takes the new log in place of its own, and node 1 commits it. */
  lemma Rewritten(run: seq<Cluster>, events: seq<Event>, ns: map<int, Node>) returns (run': seq<Cluster>, events': seq<Event>)
    requires Reaches(run, events, ns, {}) && 0 in ns && 1 in ns && ns[0] == Yields0(LOG2, 0, 0) && ns[1] == Lead1(NEW2, 1, 0, 0)
    ensures Reaches(run', events', ns[0 := Yields0(NEW2, 0, 0)][1 := Lead1(NEW2, 3, 2, 2)], {}) && run <= run' && events <= events'
  {
    hide Reaches, HandleAppend, HandleAppendResp, BuildAppend, Matched;
    LeadShapes(NEW2, 1, 0, 0);
    YieldShapes(LOG2, 0, 0);
    Builds(ns[1], NEW2, 0, 0);
    assert NEW2[0..] == NEW2;
    var r := AppendReq(2, 1, 0, 0, NEW2, 0);
    Rewrites();
    var m := map[0 := 0, 2 := 0][0 := 2];
    assert m == map[0 := 2, 2 := 0] && map[0 := 1, 2 := 2][0 := 3] == map[0 := 3 as nat, 2 := 2];
    Counts0();
    Commits(ns[1], 0, r, m);
    run', events' := Exchanges(run, events, ns, 1, 0, r, Yields0(NEW2, 0, 0), AppendResp(2, true), Lead1(NEW2, 3, 2, 2));
  }

  lemma Counts0()
    ensures 1 + Matched(Cfg(1).peers, map[0 := 2, 2 := 0], 2) >= Majority(Cfg(1))
  {
    assert [0, 2][1..] == [2];
  }

  /** Node 0 hears of the commit and applies both entries. */
  lemma Replaces(run0: seq<Cluster>, events0: seq<Event>, ns0: map<int, Node>) returns (run: seq<Cluster>, events: seq<Event>)
    requires Reaches(run0, events0, ns0, {}) && 0 in ns0 && 1 in ns0 && ns0[0] == Yields0(NEW2, 0, 0) && ns0[1] == Lead1(NEW2, 3, 2, 2)
    ensures Reaches(run, events, ns0[0 := Yields0(NEW2, 2, 2).(store := TWO)], {}) && run0 <= run && events0 <= events
  {
    hide Reaches, HandleAppend, BuildAppend, TryApply, Yields0, Lead1;
    LeadShapes(NEW2, 3, 2, 2);
    YieldShapes(NEW2, 0, 0);
    YieldShapes(NEW2, 2, 0);
    YieldStamps();
    Builds(ns0[1], NEW2, 0, 2);
    assert NEW2[2..] == [] && NEW2 + [] == NEW2;
    var r := AppendReq(2, 1, 2, 2, [], 2);
    Takes(ns0[0], r);
    var f0, f1 := Yields0(NEW2, 2, 0), Yields0(NEW2, 2, 1);
    run, events := Loses(run0, events0, ns0, 1, 0, r, f0);
    Stores2();
    assert f0.(store := map[]) == f0;
    run, events := ApplyNext(run, events, ns0[0 := f0], 0, map[]);
    YieldShapes(NEW2, 2, 1);
    run, events := ApplyNext(run, events, ns0[0 := f0][0 := f1], 0, TWO);
    var f2 := Yields0(NEW2, 2, 2).(store := TWO);
    assert ns0[0 := f0][0 := f1][0 := f2] == ns0[0 := f2];
  }

  lemma Stores2()
    ensures TryApply(map[], NOOP2, LIMIT) == Some(map[]) && TryApply(map[], R2, LIMIT) == Some(TWO)
  {
  }

  lemma YieldStamps()
    ensures Has(Yields0(NEW2, 0, 0), NEW2) == Yields0(NEW2, 0, 0) && Stamp(Yields0(NEW2, 0, 0), 2, 0) == Yields0(NEW2, 2, 0)
    ensures Stamp(Yields0(NEW2, 2, 0), 2, 1) == Yields0(NEW2, 2, 1)
    ensures Stamp(Yields0(NEW2, 2, 1).(store := TWO), 2, 2) == Yields0(NEW2, 2, 2).(store := TWO)
    ensures Yields0(NEW2, 0, 0).(role := Follower, leader := 1) == Yields0(NEW2, 0, 0)
  {
  }

  /** Node 0 accepts SET a 1 at index 2, a majority elects node 1, and node 0
      itself ends by applying SET a 2 at index 2: the result it then delivers
      for index 2 is not about SET a 1. */
  lemma ReplacedProposal() returns (run: seq<Cluster>, events: seq<Event>, i: nat)
    ensures IsRun(run, events, LIMIT) && i < |events| && i < |run| && events[i] == Run(0, Client(FIRST))
    ensures 0 in run[i].procs && run[i].procs[0].Up? && Propose(run[i].procs[0].node, FIRST).reply == Accepted(2)
    ensures var c := run[|run| - 1];
      && 0 in c.procs && c.procs[0].Up? && c.procs[0].node.applied == 2 && c.procs[0].node.store == TWO
      && EntryAt(c.procs[0].node, 2) == Some(R2) != Some(EntryFor(run[i].procs[0].node, FIRST))
  {
    hide React, Reaches, Lead, Lead1, Peer, Boots, Yields0, Votes2;
    run, events := Elected();
    var ns := Opening();
    i := |events|;
    var before := run;
    Last(run, events, ns, {});
    assert 0 in ns && run[|run| - 1].procs[0] == Up(ns[0]);
    Shapes([NOOP1], 2, 2, 0, 0, 0);
    Proposes(ns[0], FIRST);
    run, events := Propose2(run, events, ns, 2, 2, 0, 0, 0);
    ns := ns[0 := Lead(LOG2, 2, 2, 0, 0, 0)];
    run, events := Reelected(run, events, ns);
    ns := ns[1 := Lead1(NEW2, 2, 0, 0)][2 := Votes2()];
    run, events := Probe0(run, events, ns);
    ns := ns[0 := Yields0(LOG2, 0, 0)][1 := Lead1(NEW2, 1, 0, 0)];
    run, events := Rewritten(run, events, ns);
    ns := ns[0 := Yields0(NEW2, 0, 0)][1 := Lead1(NEW2, 3, 2, 2)];
    run, events := Replaces(run, events, ns);
    ns := ns[0 := Yields0(NEW2, 2, 2).(store := TWO)];
    Last(run, events, ns, {});
    assert 0 in ns && run[i] == before[|before| - 1];
    Ends();
  }

  lemma Ends()
    ensures var f := Yields0(NEW2, 2, 2).(store := TWO); f.applied == 2 && EntryAt(f, 2) == Some(R2)
    ensures EntryFor(Lead([NOOP1], 2, 2, 0, 0, 0), FIRST) == E2 != R2
  {
  }
}
