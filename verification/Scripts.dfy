/** Building explicit runs of a three-node cluster, one locked section or one
    whole exchange at a time, and what those do to nodes with plain logs. */
module Scripts {
  import opened Entries
  import opened KvStore
  import opened Disk
  import opened Node
  import opened Relation
  import opened Snapshots
  import opened Cluster
  import opened Traces

  const LIMIT: nat := 8

  // ------------------------------------------------------- extending a run

  /** A run that has reached these nodes, all up, and sent at least these messages. */
  predicate Reaches(run: seq<Cluster>, events: seq<Event>, ns: map<int, Node>, sent: set<Msg>) {
    && IsRun(run, events, LIMIT)
    && var c := run[|run| - 1];
    c.procs.Keys == ns.Keys && (forall id :: id in ns ==> c.procs[id] == Up(ns[id])) && sent <= c.net
  }

  /** What an input needs, told on the messages known to be sent. */
  predicate Allowed(n: Node, i: Input, sent: set<Msg>) {
    match i
    case Client(command) => |command.value| <= n.cfg.limit
    case SendInstall(_, _) => false
    case Receive(m) => m in sent && m.to == n.cfg.id && (m.InstallAsk? ==> NoSnapshotRunning(n))
    case _ => true
  }

  /** One node acts; only the newly sent messages are remembered. */
  lemma Act(run: seq<Cluster>, events: seq<Event>, ns: map<int, Node>, sent: set<Msg>, id: int, i: Input, n': Node, out: set<Msg>)
    returns (run': seq<Cluster>, events': seq<Event>)
    requires Reaches(run, events, ns, sent) && id in ns && Allowed(ns[id], i, sent)
    requires React(ns[id], i).node == n' && out <= React(ns[id], i).reply
    ensures Reaches(run', events', ns[id := n'], out)
    ensures run <= run' && |run'| == |run| + 1 && events' == events + [Run(id, i)]
  {
    hide React, Init;
    var c := run[|run| - 1];
    var o := React(ns[id], i);
    var c' := c.(procs := c.procs[id := Up(o.node)], net := c.net + o.reply);
    assert Next(c, Run(id, i), c');
    Extended(run, events, LIMIT, Run(id, i), c');
    run', events' := run + [c'], events + [Run(id, i)];
  }

  /** The run's last state is the one reached. */
  lemma Last(run: seq<Cluster>, events: seq<Event>, ns: map<int, Node>, sent: set<Msg>)
    requires Reaches(run, events, ns, sent)
    ensures IsRun(run, events, LIMIT) && |run| == |events| + 1
    ensures forall id :: id in ns ==> id in run[|run| - 1].procs && run[|run| - 1].procs[id] == Up(ns[id])
  {
    hide Init, Next;
  }

  // ---------------------------------------------------- exchanges of a leader

  /** Leader l's request to p arrives; its answer is on the way, or lost. */
  lemma Delivers(run: seq<Cluster>, events: seq<Event>, ns: map<int, Node>, l: int, p: int, r: AppendReq, f': Node, resp: AppendResp)
    returns (run': seq<Cluster>, events': seq<Event>)
    requires Reaches(run, events, ns, {}) && l in ns && p in ns && l != p && ns[p].cfg.id == p
    requires BuildAppend(ns[l], p) == Some(r) && r.leader == l
    requires HandleAppend(ns[p], r).node == f' && HandleAppend(ns[p], r).reply == resp
    ensures Reaches(run', events', ns[p := f'], {AppendAnswer(p, l, r, resp)}) && run <= run' && events <= events'
  {
    hide Reaches, BuildAppend, HandleAppend;
    run', events' := Act(run, events, ns, {}, l, SendAppend(p), ns[l], {AppendAsk(p, r)});
    assert ns[l := ns[l]] == ns;
    run', events' := Act(run', events', ns, {AppendAsk(p, r)}, p, Receive(AppendAsk(p, r)), f', {AppendAnswer(p, l, r, resp)});
  }

  lemma Loses(run: seq<Cluster>, events: seq<Event>, ns: map<int, Node>, l: int, p: int, r: AppendReq, f': Node)
    returns (run': seq<Cluster>, events': seq<Event>)
    requires Reaches(run, events, ns, {}) && l in ns && p in ns && l != p && ns[p].cfg.id == p
    requires BuildAppend(ns[l], p) == Some(r) && r.leader == l && HandleAppend(ns[p], r).node == f'
    ensures Reaches(run', events', ns[p := f'], {}) && run <= run' && events <= events'
  {
    hide IsRun, BuildAppend, HandleAppend;
    run', events' := Delivers(run, events, ns, l, p, r, f', HandleAppend(ns[p], r).reply);
  }

  /** The whole exchange, the answer counted. */
  lemma Exchanges(run: seq<Cluster>, events: seq<Event>, ns: map<int, Node>, l: int, p: int, r: AppendReq, f': Node, resp: AppendResp, l': Node)
    returns (run': seq<Cluster>, events': seq<Event>)
    requires Reaches(run, events, ns, {}) && l in ns && p in ns && l != p && ns[p].cfg.id == p && ns[l].cfg.id == l
    requires BuildAppend(ns[l], p) == Some(r) && r.leader == l
    requires HandleAppend(ns[p], r).node == f' && HandleAppend(ns[p], r).reply == resp
    requires HandleAppendResp(ns[l], p, r, resp).node == l'
    ensures Reaches(run', events', ns[p := f'][l := l'], {}) && run <= run' && events <= events'
  {
    hide Reaches, BuildAppend, HandleAppend, HandleAppendResp;
    run', events' := Delivers(run, events, ns, l, p, r, f', resp);
    var m := AppendAnswer(p, l, r, resp);
    run', events' := Act(run', events', ns[p := f'], {m}, l, Receive(m), l', {});
  }

  /** The leader loads its snapshot and sends it. */
  lemma Ships(run: seq<Cluster>, events: seq<Event>, ns: map<int, Node>, l: int, p: int, snap: Snapshot, r: InstallReq)
    returns (run': seq<Cluster>, events': seq<Event>)
    requires Reaches(run, events, ns, {}) && l in ns && ns[l].cfg.id == l && ns[l].disk.snap == Some(snap)
    requires BuildInstall(ns[l], p, Some(snap)) == Some(r)
    ensures Reaches(run', events', ns, {InstallAsk(p, r)}) && run <= run' && events <= events'
  {
    hide Init, BuildInstall;
    var x := run[|run| - 1];
    var y := x.(loaded := x.loaded + {(l, snap)});
    assert Next(x, Load(l), y);
    Extended(run, events, LIMIT, Load(l), y);
    var z := y.(procs := y.procs[l := Up(ns[l])], net := y.net + {InstallAsk(p, r)});
    assert Next(y, Run(l, SendInstall(p, snap)), z);
    Extended(run + [y], events + [Load(l)], LIMIT, Run(l, SendInstall(p, snap)), z);
    run', events' := run + [y] + [z], events + [Load(l)] + [Run(l, SendInstall(p, snap))];
  }

  // ----------------------------------------------- nodes with plain full logs

  function Has(n: Node, log: Log): Node { n.(log := log, disk := n.disk.(log := log)) }

  /** Commit and applied indexes, in memory and on disk. */
  function Stamp(n: Node, commit: nat, applied: nat): Node {
    n.(commit := commit, applied := applied, disk := n.disk.(stable := Stable(n.term, n.votedFor, commit, applied)))
  }

  /** Not compacted, and mirrored on disk. */
  predicate Plain(n: Node) {
    n.meta == Boundary(0, 0) && Indexed(n.log) && n.disk.log == n.log && n.applied <= n.commit <= |n.log| && NO_VOTE <= n.votedFor
  }

  lemma PlainLog(n: Node)
    requires Plain(n)
    ensures SuffixOf(n.log, n.meta, n.log)
  {
    assert n.log[0..] == n.log;
  }

  /** The request of a leader with history h for a peer at cursor k + 1. */
  lemma Builds(n: Node, h: Log, p: int, k: nat)
    requires SuffixOf(n.log, n.meta, h) && Indexed(h) && n.role == Leader && p in n.next && n.meta.index <= k <= |h| && n.next[p] == k + 1
    ensures BuildAppend(n, p) == Some(AppendReq(n.term, n.cfg.id, k, TermIn(h, k), h[k..], n.commit))
  {
    hide TermAt, EntriesFrom, LastIndex, Indexed, SuffixOf;
    LastIs(n, h);
    TermIs(n, h, k);
    EntriesAre(n, h, k + 1);
  }

  /** A node with history h that cannot vouch for the entry before the request's. */
  lemma Refuses(f: Node, h: Log, r: AppendReq)
    requires SuffixOf(f.log, f.meta, h) && Indexed(h) && f.term == r.term
    requires r.prevIndex < f.meta.index || r.prevIndex > |h| || TermIn(h, r.prevIndex) != r.prevTerm
    ensures HandleAppend(f, r) == Outcome(f.(role := Follower, leader := r.leader), [], AppendResp(r.term, false))
  {
    hide TermAt, PlanFrom, CutTo, AddAll, CommitUpTo, Indexed, SuffixOf;
    TermIs(f.(role := Follower, leader := r.leader), h, r.prevIndex);
  }

  /** A request of a later term is handled like one of the node's term, once
      the term is adopted. */
  lemma Adopts(f: Node, r: AppendReq)
    requires f.term < r.term && f.applied <= f.commit
    ensures var n := Stamp(f.(term := r.term, votedFor := NO_VOTE, role := Follower, leader := r.leader), f.commit, f.applied);
      HandleAppend(f, r).node == HandleAppend(n, r).node && HandleAppend(f, r).reply == HandleAppend(n, r).reply
  {
    hide AppendInTerm;
  }

  /** A node whose log is all the leader's takes what follows it. */
  lemma Takes(f: Node, r: AppendReq)
    requires Plain(f) && f.term == r.term && r.prevIndex == |f.log| && r.prevTerm == LastTerm(f.log)
    requires Loadable(r.entries) && Indexed(f.log + r.entries) && f.commit <= r.commit <= |f.log| + |r.entries|
    ensures HandleAppend(f, r).reply == AppendResp(r.term, true)
    ensures HandleAppend(f, r).node == TakenBy(f, r)
  {
    hide Loadable, TermAt, PerformAll, Appends, SuffixOf, EntryAt, LastIndexFor, CutTo;
    var f0 := f.(role := Follower, leader := r.leader);
    PlainLog(f0);
    TermIs(f0, f.log, |f.log|);
    LastIs(f0, f.log);
    PlanIsTail(f0, r.entries);
    CutNothing(f0);
    PerformAppends(f0.disk, r.entries);
    var n := Has(f0, f.log + r.entries);
    assert AddAll(f0, r.entries) == Outcome(n, Appends(r.entries), true);
    LastOfLog(n, |f.log| + |r.entries|);
  }

  function TakenBy(f: Node, r: AppendReq): Node {
    var n := Has(f.(role := Follower, leader := r.leader), f.log + r.entries);
    if r.commit > f.commit then Stamp(n, r.commit, f.applied) else n
  }

  lemma CutNothing(n: Node)
    ensures CutTo(n, 0) == Outcome(n, [], true)
  {
  }

  lemma PlanIsTail(n: Node, es: Log)
    requires Plain(n) && Indexed(n.log + es) && Loadable(es) && LastIndex(n) == |n.log|
    ensures PlanFrom(n, |n.log|, es, 0) == Plan(0, es)
  {
    hide LastIndex;
    if es != [] {
      assert (n.log + es)[|n.log|] == es[0];
      assert es[0..] == es;
    }
  }

  lemma LastOfLog(n: Node, k: nat)
    requires n.meta == Boundary(0, 0) && Indexed(n.log) && |n.log| == k
    ensures LastIndex(n) == k
  {
  }

  /** Counting an answer that completes a majority at the last index. */
  lemma Commits(n: Node, p: int, r: AppendReq, m: map<int, nat>)
    requires Plain(n) && n.role == Leader && r.term == n.term && r.prevIndex + |r.entries| == |n.log| > n.commit
    requires LastTerm(n.log) == n.term && m == n.match_[p := |n.log|] && At(n.match_, p) <= |n.log| && At(n.next, p) <= |n.log| + 1
    requires 1 + Matched(n.cfg.peers, m, |n.log|) >= Majority(n.cfg)
    ensures HandleAppendResp(n, p, r, AppendResp(n.term, true)).node
         == Stamp(n.(match_ := m, next := n.next[p := |n.log| + 1]), |n.log|, n.applied)
  {
    hide TermAt, Matched, LastIndexFor, SuffixOf, Indexed;
    var n1 := n.(match_ := m, next := n.next[p := |n.log| + 1]);
    PlainLog(n1);
    TermIs(n1, n.log, |n.log|);
    LastIs(n1, n.log);
    assert Committable(n1, |n.log|);
    assert CommitPoint(n1, |n.log|) == |n.log|;
  }

  lemma StepsBack(n: Node, p: int, r: AppendReq)
    requires n.role == Leader && r.term == n.term && p in n.next && n.next[p] > 1
    ensures HandleAppendResp(n, p, r, AppendResp(n.term, false)).node == n.(next := n.next[p := n.next[p] - 1])
  {
  }

  lemma Proposes(n: Node, c: Command)
    requires Plain(n) && n.role == Leader && n.phase != Stopped && ValidCommand(c)
    ensures var e := LogEntry(|n.log| + 1, n.term, c.op, c.key, c.value);
      React(n, Client(c)).node == Has(n, n.log + [e]) && Propose(n, c).reply == Accepted(e.index)
  {
    hide ValidCommand, LastIndexFor;
    LastOfLog(n, |n.log|);
  }

  // -------------------------------------------- sections of the apply loop

  /** Node id applies its next entry. */
  lemma ApplyNext(run: seq<Cluster>, events: seq<Event>, ns: map<int, Node>, id: int, s: Store)
    returns (run': seq<Cluster>, events': seq<Event>)
    requires Reaches(run, events, ns, {}) && id in ns && Plain(ns[id]) && ns[id].phase == Idle && ns[id].applied < ns[id].commit
    requires TryApply(ns[id].store, ns[id].log[ns[id].applied], ns[id].cfg.limit) == Some(s)
    ensures Reaches(run', events', ns[id := Stamp(ns[id].(store := s), ns[id].commit, ns[id].applied + 1)], {}) && run <= run' && events <= events'
  {
    hide React, Reaches, TryApply;
    var n := ns[id];
    var e := n.log[n.applied];
    Picks(n);
    Applies(n, e, s);
    var p, q := n.(phase := Picked(e)), n.(phase := Applied(e), store := s);
    var n' := Stamp(n.(store := s), n.commit, n.applied + 1);
    run', events' := Act(run, events, ns, {}, id, PickEntry, p, {});
    run', events' := Act(run', events', ns[id := p], {}, id, ApplyPicked, q, {});
    run', events' := Act(run', events', ns[id := p][id := q], {}, id, PublishApplied, n', {});
    assert ns[id := p][id := q][id := n'] == ns[id := n'];
  }

  lemma Picks(n: Node)
    requires Plain(n) && n.phase == Idle && n.applied < n.commit
    ensures React(n, PickEntry).node == n.(phase := Picked(n.log[n.applied]))
  {
    hide EntryAt, SuffixOf, Indexed;
    PlainLog(n);
    EntryIs(n, n.log, n.applied + 1);
  }

  lemma Applies(n: Node, e: LogEntry, s: Store)
    requires e.index == n.applied + 1 <= n.commit && TryApply(n.store, e, n.cfg.limit) == Some(s) && NO_VOTE <= n.votedFor && n.phase == Idle
    ensures React(n.(phase := Picked(e)), ApplyPicked).node == n.(phase := Applied(e), store := s)
    ensures React(n.(phase := Applied(e), store := s), PublishApplied).node == Stamp(n.(store := s), n.commit, e.index)
  {
    hide TryApply;
  }

  /** What a snapshot of everything applied leaves. */
  function Compacted(n: Node): Node
    requires n.applied <= |n.log|
  {
    var t := TermIn(n.log, n.applied);
    n.(log := n.log[n.applied..], meta := Boundary(n.applied, t),
       disk := n.disk.(log := n.log[n.applied..], snap := Some(Snapshot(n.applied, t, Image(n.store)))))
  }

  /** Node id snapshots all it has applied and compacts. */
  lemma SnapshotNow(run: seq<Cluster>, events: seq<Event>, ns: map<int, Node>, id: int) returns (run': seq<Cluster>, events': seq<Event>)
    requires Reaches(run, events, ns, {}) && id in ns && Plain(ns[id]) && ns[id].phase == Idle && 0 < ns[id].applied && ns[id].cfg.threshold <= 1
    ensures Reaches(run', events', ns[id := Compacted(ns[id])], {}) && run <= run' && events <= events'
  {
    hide React, Reaches, Plain;
    var n := ns[id];
    var t := Captures(n);
    var p := n.(phase := Captured(n.applied, t));
    var q := n.(phase := Saved(n.applied, t), disk := n.disk.(snap := Some(Snapshot(n.applied, t, Image(n.store)))));
    Compacts(n, t);
    run', events' := Act(run, events, ns, {}, id, CaptureBoundary, p, {});
    run', events' := Act(run', events', ns[id := p], {}, id, SaveCaptured, q, {});
    run', events' := Act(run', events', ns[id := p][id := q], {}, id, PublishSaved, Compacted(n), {});
    assert ns[id := p][id := q][id := Compacted(n)] == ns[id := Compacted(n)];
  }

  lemma Captures(n: Node) returns (t: nat)
    requires Plain(n) && n.phase == Idle && 0 < n.applied && n.cfg.threshold <= 1
    ensures n.applied <= |n.log| && t == TermIn(n.log, n.applied)
    ensures React(n, CaptureBoundary).node == n.(phase := Captured(n.applied, t))
    ensures React(n.(phase := Captured(n.applied, t)), SaveCaptured).node
         == n.(phase := Saved(n.applied, t), disk := n.disk.(snap := Some(Snapshot(n.applied, t, Image(n.store)))))
  {
    hide TermAt, SuffixOf, Indexed;
    t := TermIn(n.log, n.applied);
    PlainLog(n);
    TermIs(n, n.log, n.applied);
  }

  lemma Compacts(n: Node, t: nat)
    requires Plain(n) && 0 < n.applied <= |n.log| && t == TermIn(n.log, n.applied)
    ensures React(n.(phase := Saved(n.applied, t), disk := n.disk.(snap := Some(Snapshot(n.applied, t, Image(n.store))))), PublishSaved).node
         == Compacted(n).(phase := Idle)
  {
    hide EntriesFrom, SuffixOf, Indexed, Compact;
    var q := n.(phase := Saved(n.applied, t), disk := n.disk.(snap := Some(Snapshot(n.applied, t, Image(n.store)))));
    PlainLog(q);
    EntriesAre(q, n.log, n.applied + 1);
    CompactSuffix(n.log, 0, n.applied);
    assert n.log[0..] == n.log;
  }
}
