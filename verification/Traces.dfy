/** Continuing a run: one locked section, one load or one restart at a time. */
module Traces {
  import opened Entries
  import Elections
  import opened KvStore
  import opened Disk
  import opened Node
  import opened Relation
  import opened Cluster
  import opened Refinement
  import opened Progress
  import opened Cursors
  import opened Voting
  import P = Protocol

  datatype Trace = Trace(run: seq<Cluster>, events: seq<Event>)

  predicate Legal(t: Trace, limit: nat) {
    t.run != [] && IsRun(t.run, t.events, limit)
  }

  function End(t: Trace): Cluster
    requires t.run != []
  {
    t.run[|t.run| - 1]
  }

  /** u goes on from where t ends. */
  predicate GoesOn(t: Trace, u: Trace) {
    t.run <= u.run && t.events <= u.events
  }

  lemma Take(t: Trace, limit: nat, e: Event, c: Cluster) returns (u: Trace)
    requires Legal(t, limit) && Next(End(t), e, c)
    ensures Legal(u, limit) && GoesOn(t, u) && End(u) == c
    ensures u == Trace(t.run + [c], t.events + [e])
  {
    hide Next, IsRun;
    Extended(t.run, t.events, limit, e, c);
    u := Trace(t.run + [c], t.events + [e]);
  }

  lemma Extended(run: seq<Cluster>, events: seq<Event>, limit: nat, e: Event, c: Cluster)
    requires IsRun(run, events, limit) && Next(run[|run| - 1], e, c)
    ensures IsRun(run + [c], events + [e], limit)
  {
    hide Next, Init;
    var run', events' := run + [c], events + [e];
    forall i | 0 <= i < |events'| ensures Next(run'[i], events'[i], run'[i + 1]) {
      if i < |events| { assert Next(run[i], events[i], run[i + 1]); }
    }
  }

  /** Node id acts. */
  lemma Acts(t: Trace, limit: nat, id: int, i: Input) returns (u: Trace)
    requires Legal(t, limit) && id in End(t).procs && End(t).procs[id].Up? && Enabled(End(t), End(t).procs[id].node, i)
    ensures Legal(u, limit) && GoesOn(t, u) && u.events == t.events + [Run(id, i)] && |u.run| == |t.run| + 1
    ensures var c := End(t); var o := React(c.procs[id].node, i);
      End(u) == c.(procs := c.procs[id := Up(o.node)], net := c.net + o.reply)
  {
    hide React, IsRun, Enabled;
    var c := End(t);
    var o := React(c.procs[id].node, i);
    u := Take(t, limit, Run(id, i), c.(procs := c.procs[id := Up(o.node)], net := c.net + o.reply));
  }

  /** Node id's snapshot is read from disk. */
  lemma Loads(t: Trace, limit: nat, id: int) returns (u: Trace)
    requires Legal(t, limit) && id in End(t).procs && End(t).procs[id].Up? && End(t).procs[id].node.disk.snap.Some?
    ensures Legal(u, limit) && GoesOn(t, u)
    ensures var c := End(t); End(u) == c.(loaded := c.loaded + {(id, c.procs[id].node.disk.snap.value)})
  {
    hide IsRun;
    var c := End(t);
    u := Take(t, limit, Load(id), c.(loaded := c.loaded + {(id, c.procs[id].node.disk.snap.value)}));
  }

  // ------------------------------------------------- facts about a trace's end

  lemma Facts(t: Trace, limit: nat, id: int)
    requires Legal(t, limit) && id in End(t).procs && End(t).procs[id].Up?
    ensures var n := End(t).procs[id].node;
      && n.cfg.id == id && 0 <= id && n.meta.index <= n.applied <= n.commit && NO_VOTE <= n.votedFor && 0 < n.cfg.threshold
      && n.disk.stable == StableOf(n) && (forall p :: p in n.cfg.peers <==> p in End(t).procs && p != id)
  {
    hide IsRun, P.Inv, NetRel, PhaseRel, SnapRel, RoleRel, SuffixOf, Rel;
    var s := Reached(t.run, t.events, limit, |t.run| - 1, id);
    var n := End(t).procs[id].node;
    UpNode(End(t), s, id);
    IdIsNat(End(t), s, id);
    forall p ensures p in n.cfg.peers <==> p in End(t).procs && p != id { Elections.PeerIsNode(n.cfg, id, s, p); }
  }

  lemma Majorities(t: Trace, limit: nat, id: int, q: set<int>)
    requires Legal(t, limit) && id in End(t).procs && End(t).procs[id].Up? && q <= End(t).procs.Keys - {id}
    ensures |q| + 1 >= Majority(End(t).procs[id].node.cfg) <==> P.Quorum(End(t).procs.Keys, q + {id})
  {
    hide IsRun, P.Inv, NetRel, PhaseRel, SnapRel, RoleRel, MemberRel, Mirror, Rel, P.Quorum;
    var s := Reached(t.run, t.events, limit, |t.run| - 1, id);
    Facts(t, limit, id);
    UpNode(End(t), s, id);
    IdIsNat(End(t), s, id);
    Elections.MajorityIsQuorum(End(t).procs[id].node.cfg, id, s, q);
  }

  // ---------------------------------------------------------------- restarts

  /** A process that stops between two sections and starts again. */
  lemma Restarts(t: Trace, limit: nat, id: int) returns (u: Trace)
    requires Legal(t, limit) && id in End(t).procs
    ensures Legal(u, limit) && GoesOn(t, u) && End(u).procs.Keys == End(t).procs.Keys
    ensures forall x :: x in End(t).procs && x != id ==> End(u).procs[x] == End(t).procs[x]
    ensures End(u).procs[id].Up? && End(u).procs[id].node.role == Follower && End(u).procs[id].node.phase == Idle
  {
    hide IsRun, Next, Recover, PerformAll;
    u := t;
    if End(t).procs[id].Up? {
      u := Stops(t, limit, id);
    }
    var c := End(u);
    var last := |u.run| - 1;
    RestartSafety(u.run, u.events, limit, last, id, 0);
    var b := Recover(c.procs[id].cfg, c.procs[id].disk);
    BootedFollows(c.procs[id].cfg, c.procs[id].disk);
    BootsIdle(c.procs[id].cfg, c.procs[id].disk);
    StartNext(c, id);
    var v := Take(u, limit, Start(id), c.(procs := c.procs[id := Up(b.node)]));
    assert End(v).procs[id] == Up(b.node);
    u := v;
  }

  lemma BootsIdle(cfg: Config, d: Disk)
    ensures Recover(cfg, d).Booted? ==> Recover(cfg, d).node.phase == Idle
  {
    hide Replay, Reconcile, Loadable, FollowsBoundary, PerformAll, Perform;
  }

  lemma StartNext(c: Cluster, id: int)
    requires id in c.procs && c.procs[id].Down? && Recover(c.procs[id].cfg, c.procs[id].disk).Booted?
    ensures Next(c, Start(id), c.(procs := c.procs[id := Up(Recover(c.procs[id].cfg, c.procs[id].disk).node)]))
  {
    hide Recover;
  }

  lemma Stops(t: Trace, limit: nat, id: int) returns (u: Trace)
    requires Legal(t, limit) && id in End(t).procs && End(t).procs[id].Up?
    ensures Legal(u, limit) && GoesOn(t, u)
    ensures var c := End(t); var n := c.procs[id].node; End(u) == c.(procs := c.procs[id := Down(n.cfg, n.disk)])
  {
    hide IsRun, React, PerformAll;
    var c := End(t);
    var n := c.procs[id].node;
    Nothing(n.disk, React(n, Timeout).writes);
    u := Take(t, limit, Crash(id, Timeout, 0), c.(procs := c.procs[id := Down(n.cfg, n.disk)]));
  }
}
