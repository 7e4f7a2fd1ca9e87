/** What every run of the cluster guarantees, told on concrete nodes only. */
module Safety {
  import opened Entries
  import opened KvStore
  import opened Disk
  import opened Node
  import opened Relation
  import opened Replication
  import opened Snapshots
  import opened ApplyLoop
  import opened Startup
  import opened Cluster
  import opened Refinement
  import P = Protocol
  import S = ProtocolSteps

  // ------------------------------------------------------------ definitions

  /** A node of the cluster as it runs, or as it will restart from its disk. */
  predicate Viewable(p: Proc) {
    p.Down? ==> Recover(p.cfg, p.disk).Booted?
  }

  function View(p: Proc): Node
    requires Viewable(p)
  {
    match p
    case Up(n) => n
    case Down(cfg, d) => Recover(cfg, d).node
  }

  /** n's part of the committed sequence: its indexes are in order, what it
      holds up to its commit index is committed, its snapshot is the image of a
      committed prefix, and its disk mirrors its memory. */
  predicate Conforms(n: Node, committed: Log) {
    && n.meta.index <= n.applied <= n.commit <= LastIndex(n)
    && n.commit <= |committed|
    && n.meta.term == TermIn(committed, n.meta.index)
    && (forall i :: n.meta.index < i <= n.commit ==> EntryAt(n, i) == Some(committed[i - 1]))
    && (n.disk.snap.Some? ==> SnapRel(n.disk.snap.value, committed))
    && Mirror(n)
  }

  /** The store is exactly the applied prefix; or one entry ahead, while that
      entry waits to be published; or, once an install overtook the picked
      entry, the applied prefix with one of its own entries applied again. */
  predicate StoreConforms(n: Node, committed: Log)
    requires n.applied <= |committed|
  {
    match n.phase
    case Applied(e) =>
      if e.index == n.applied + 1 then n.applied < |committed| && n.store == Fold(committed[..n.applied + 1])
      else OnceMore(n.store, committed, n.applied)
    case Stopped => OnceMore(n.store, committed, n.applied)
    case _ => n.store == Fold(committed[..n.applied])
  }

  predicate ProcConforms(p: Proc, committed: Log) {
    && Viewable(p) && Conforms(View(p), committed) && StoreConforms(View(p), committed)
    && (p.Down? ==>
          && View(p).term == p.disk.stable.term && View(p).votedFor == p.disk.stable.votedFor
          && View(p).commit == Max(p.disk.stable.commit, BoundaryOf(p.disk.snap).index))
  }

  predicate ClusterConforms(c: Cluster, committed: Log) {
    && (forall id :: id in c.procs ==> ProcConforms(c.procs[id], committed))
    && (forall x :: x in c.loaded ==> SnapRel(x.1, committed))
    && (forall m :: m in c.net && m.InstallAsk? ==>
          SnapRel(Snapshot(m.install.index, m.install.lastTerm, m.install.data), committed))
  }

  // ---------------------------------------------------- from the relation

  lemma NodeConforms(n: Node, id: int, s: P.State)
    requires P.Inv(s) && NodeRel(n, id, s)
    ensures Conforms(n, s.done) && StoreConforms(n, s.done)
  {
    hide P.Inv, P.Certified, P.Anchored, Fold, EntryAt, SnapRel, LastIndex;
    MemberHistory(s, id);
    var h := s.at[id].hist;
    LastIs(n, h);
    AppliedIs(n, id, s, n.meta.index);
    forall i | n.meta.index < i <= n.commit ensures EntryAt(n, i) == Some(s.done[i - 1]) {
      EntryIs(n, h, i);
      AppliedIs(n, id, s, i);
    }
  }

  lemma ViewRel(p: Proc, id: int, s: P.State)
    requires P.Inv(s) && ProcRel(p, id, s)
    ensures Viewable(p) && NodeRel(View(p), id, s)
  {
    hide P.Inv, NodeRel, DiskRel, Recover;
    if p.Down? { FreshRel(p.cfg, p.disk, id, s); }
  }

  lemma RelConforms(c: Cluster, s: P.State)
    requires Rel(c, s)
    ensures ClusterConforms(c, s.done)
  {
    hide P.Inv, NodeRel, DiskRel, Recover, Conforms, SnapRel;
    forall id | id in c.procs ensures ProcConforms(c.procs[id], s.done) {
      hide NetRel;
      assert ProcRel(c.procs[id], id, s);
      ProcsConform(c.procs[id], id, s);
    }
    forall m | m in c.net && m.InstallAsk?
      ensures SnapRel(Snapshot(m.install.index, m.install.lastTerm, m.install.data), s.done)
    {
      assert MsgRel(m, s);
      InstallImage(s, m.install);
    }
  }

  lemma ProcsConform(p: Proc, id: int, s: P.State)
    requires P.Inv(s) && ProcRel(p, id, s)
    ensures ProcConforms(p, s.done)
  {
    hide P.Inv, Recover, Conforms, StoreConforms;
    ViewRel(p, id, s);
    NodeConforms(View(p), id, s);
    assert View(p).applied <= |s.done| by { hide Mirror, MemberRel, CfgRel, RoleRel; }
    if p.Down? {
      hide CfgRel, Mirror, PhaseRel, RoleRel, Reconciled, SnapRel;
    }
  }

  // ------------------------------------------------------------- theorems

  /** State machine safety. One committed sequence, growing along the run,
      covers every node at every moment, running or crashed: entries, stores,
      snapshots on disk, snapshots being sent. */
  lemma StateMachineSafety(run: seq<Cluster>, events: seq<Event>, limit: nat) returns (committed: seq<Log>)
    requires IsRun(run, events, limit)
    ensures |committed| == |run|
    ensures forall i :: 0 <= i < |run| ==> ClusterConforms(run[i], committed[i])
    ensures forall i, j :: 0 <= i <= j < |run| ==> committed[i] <= committed[j]
  {
    hide Rel, IsRun, ClusterConforms;
    var states := RunRefines(run, events, limit);
    committed := seq(|run|, i requires 0 <= i < |run| => states[i].done);
    forall i | 0 <= i < |run| ensures ClusterConforms(run[i], committed[i]) {
      RelConforms(run[i], states[i]);
    }
    forall i, j | 0 <= i <= j < |run| ensures committed[i] <= committed[j] {
      assert Later(states[i], states[j]);
    }
  }

  /** Two nodes agree at every index up to x that both still hold, and on the
      terms of their snapshot boundaries. */
  predicate SameThrough(a: Node, b: Node, x: nat) {
    forall y :: 0 <= y <= x ==>
      && (EntryAt(a, y).Some? && EntryAt(b, y).Some? ==> EntryAt(a, y) == EntryAt(b, y))
      && (TermAt(a, y).Some? && TermAt(b, y).Some? ==> TermAt(a, y) == TermAt(b, y))
  }

  lemma HistoriesSame(a: Node, b: Node, ha: Log, hb: Log, x: nat)
    requires SuffixOf(a.log, a.meta, ha) && SuffixOf(b.log, b.meta, hb) && Indexed(ha) && Indexed(hb)
    requires x <= |ha| && x <= |hb| && ha[..x] == hb[..x]
    ensures SameThrough(a, b, x)
  {
    hide EntryAt, TermAt;
    forall y | 0 <= y <= x
      ensures EntryAt(a, y).Some? && EntryAt(b, y).Some? ==> EntryAt(a, y) == EntryAt(b, y)
      ensures TermAt(a, y).Some? && TermAt(b, y).Some? ==> TermAt(a, y) == TermAt(b, y)
    {
      EntryIs(a, ha, y); EntryIs(b, hb, y); TermIs(a, ha, y); TermIs(b, hb, y);
      if y > 0 { assert ha[y - 1] == ha[..x][y - 1] == hb[..x][y - 1] == hb[y - 1]; }
    }
  }

  /** What the relation says about one view. */
  lemma ViewFacts(c: Cluster, s: P.State, id: int)
    requires Rel(c, s) && id in c.procs
    ensures Viewable(c.procs[id]) && id in s.at
    ensures var n, m := View(c.procs[id]), s.at[id];
      && SuffixOf(n.log, n.meta, m.hist) && Indexed(m.hist) && LastIndex(n) == |m.hist|
      && n.term == m.term && n.role == m.role && n.commit == m.commit <= |m.hist|
  {
    hide P.Inv, DiskRel, Recover, P.Certified, P.Anchored, AllFit, NetRel;
    assert ProcRel(c.procs[id], id, s);
    ViewRel(c.procs[id], id, s);
    MemberHistory(s, id);
    LastIs(View(c.procs[id]), s.at[id].hist);
    hide PhaseRel, RoleRel, Mirror, CfgRel;
  }

  /** Any two nodes, at any two moments, agree on everything both committed. */
  lemma CommittedAgree(run: seq<Cluster>, events: seq<Event>, limit: nat, i: nat, j: nat, a: int, b: int)
    requires IsRun(run, events, limit) && i <= j < |run| && a in run[i].procs && b in run[j].procs
    ensures Viewable(run[i].procs[a]) && Viewable(run[j].procs[b])
    ensures var x, y := View(run[i].procs[a]), View(run[j].procs[b]);
      SameThrough(x, y, Min(x.commit, y.commit))
  {
    hide Rel, IsRun, SameThrough, P.Inv, Later, Recover;
    var states := RunRefines(run, events, limit);
    var s, s' := states[i], states[j];
    assert Later(s, s');
    ViewFacts(run[i], s, a);
    ViewFacts(run[j], s', b);
    BothDone(run[i], s, a);
    BothDone(run[j], s', b);
    LaterDone(s, s');
    var k := Min(s.at[a].commit, s'.at[b].commit);
    assert s.at[a].hist[..k] == s.at[a].hist[..s.at[a].commit][..k] == s'.done[..k];
    assert s'.at[b].hist[..k] == s'.at[b].hist[..s'.at[b].commit][..k] == s'.done[..k];
    HistoriesSame(View(run[i].procs[a]), View(run[j].procs[b]), s.at[a].hist, s'.at[b].hist, k);
  }

  lemma BothDone(c: Cluster, s: P.State, id: int)
    requires Rel(c, s) && id in s.at
    ensures s.at[id].commit <= |s.at[id].hist| && s.at[id].hist[..s.at[id].commit] <= s.done
  {
    hide P.Inv, NetRel, ProcRel, P.Certified, P.Anchored;
    MemberHistory(s, id);
  }

  lemma LaterDone(s: P.State, s': P.State)
    requires Later(s, s')
    ensures s.done <= s'.done
  {
  }

  /** Election safety: across crashes and restarts, a term has one leader. */
  lemma ElectionSafety(run: seq<Cluster>, events: seq<Event>, limit: nat, i: nat, j: nat, a: int, b: int)
    requires IsRun(run, events, limit) && i <= j < |run| && a in run[i].procs && b in run[j].procs
    requires run[i].procs[a].Up? && run[i].procs[a].node.role == Leader
    requires run[j].procs[b].Up? && run[j].procs[b].node.role == Leader
    requires run[i].procs[a].node.term == run[j].procs[b].node.term
    ensures a == b
  {
    hide Rel, IsRun, P.Inv, Recover;
    var states := RunRefines(run, events, limit);
    assert Later(states[i], states[j]);
    LeaderFacts(run[i], states[i], a);
    LeaderFacts(run[j], states[j], b);
  }

  lemma LeaderFacts(c: Cluster, s: P.State, id: int)
    requires Rel(c, s) && id in c.procs && c.procs[id].Up? && c.procs[id].node.role == Leader
    ensures id in s.at && P.Inv(s)
    ensures var n := c.procs[id].node;
      && n.term == s.at[id].term && n.term in s.lead && s.lead[n.term] == s.at[id].hist
      && n.term in s.elected && s.elected[n.term] == id
      && (forall p :: p in n.match_ ==> n.match_[p] == 0 || P.Acked(s, n.term, p, n.match_[p]))
  {
    hide P.Inv, NetRel, PhaseRel, Mirror, CfgRel, DiskRel;
    assert ProcRel(c.procs[id], id, s);
    LeaderLog(s, id);
  }

  /** Leader completeness: whenever it led, before or after the commit, a later
      term's leader holds everything any node of an earlier term commits, and
      more; a leader of the same term holds what had been committed by then. */
  lemma LeaderCompleteness(run: seq<Cluster>, events: seq<Event>, limit: nat, i: nat, j: nat, a: int, b: int)
    requires IsRun(run, events, limit) && i < |run| && j < |run| && a in run[i].procs && b in run[j].procs
    requires run[j].procs[b].Up? && run[j].procs[b].node.role == Leader && Viewable(run[i].procs[a])
    requires View(run[i].procs[a]).term < run[j].procs[b].node.term
      || (View(run[i].procs[a]).term == run[j].procs[b].node.term && i <= j)
    ensures var x, y := View(run[i].procs[a]), run[j].procs[b].node;
      x.commit <= LastIndex(y) && SameThrough(x, y, x.commit) && (x.term < y.term ==> x.commit < LastIndex(y))
  {
    hide Rel, IsRun, SameThrough, P.Inv, Recover, P.Certified, P.Anchored;
    var states := RunRefines(run, events, limit);
    var s, s' := states[i], states[j];
    var k := Max(i, j);
    assert Later(s, states[k]) && Later(s', states[k]);
    ViewFacts(run[i], s, a);
    ViewFacts(run[j], s', b);
    LeaderFacts(run[j], s', b);
    var x, u := s.at[a], s'.at[b].term;
    CertifiedView(run[i], s, a);
    assert P.Below(x.hist, x.term) by { MemberHistory(s, a); }
    CommittedInLead(s, s', states[k], x.hist[..x.commit], x.term, u);
    HistoriesSame(View(run[i].procs[a]), run[j].procs[b].node, x.hist, s'.at[b].hist, x.commit);
  }

  /** What was certified in one state is in a leader log of another: fully if
      that is the latest state, and anyway if the leader's term is later. */
  lemma CommittedInLead(s: P.State, s': P.State, top: P.State, log: Log, t: nat, u: nat)
    requires Later(s, top) && Later(s', top) && P.Inv(s') && P.Inv(top) && P.Certified(s, log, t) && P.Below(log, t)
    requires u in s'.lead && (t < u || (t == u && s' == top))
    ensures log <= s'.lead[u] && (t < u ==> |log| < |s'.lead[u]|)
  {
    hide P.Inv, P.Certified, P.Anchored;
    S.CertifiedGrows(s, top, log, t, t);
    var l, l' := s'.lead[u], top.lead[u];
    LeadLog(top, u);
    S.CertifiedInLead(top, log, t, u);
    LeadEnds(s', u);
    assert l <= l';
    assert l[|l| - 1] == l'[|l| - 1];
  }

  lemma LeadEnds(s: P.State, u: nat)
    requires P.Inv(s) && u in s.lead
    ensures s.lead[u] != [] && LastTerm(s.lead[u]) == u
  {
    hide P.Terms, P.Anchors, P.Roles, P.Ballots, P.Acks, P.Kept, P.VotesSafe, P.Complete, P.Commits;
  }

  lemma CertifiedView(c: Cluster, s: P.State, id: int)
    requires Rel(c, s) && id in s.at
    ensures P.Inv(s) && s.at[id].commit <= |s.at[id].hist|
    ensures P.Certified(s, s.at[id].hist[..s.at[id].commit], s.at[id].term)
    ensures P.Anchored(s, s.at[id].hist)
  {
    hide P.Inv, NetRel, ProcRel;
    MemberHistory(s, id);
  }

  /** Log matching: equal terms at an index mean equal logs up to it, through
      compaction, for any two nodes at any two moments. */
  lemma LogMatching(run: seq<Cluster>, events: seq<Event>, limit: nat, i: nat, j: nat, a: int, b: int, x: nat)
    requires IsRun(run, events, limit) && i <= j < |run| && a in run[i].procs && b in run[j].procs
    requires Viewable(run[i].procs[a]) && Viewable(run[j].procs[b])
    requires TermAt(View(run[i].procs[a]), x).Some? && TermAt(View(run[i].procs[a]), x) == TermAt(View(run[j].procs[b]), x)
    ensures SameThrough(View(run[i].procs[a]), View(run[j].procs[b]), x)
  {
    hide Rel, IsRun, SameThrough, P.Inv, Recover, P.Certified, P.Anchored, TermAt, Later;
    var states := RunRefines(run, events, limit);
    var s, s' := states[i], states[j];
    assert Later(s, s');
    ViewFacts(run[i], s, a);
    ViewFacts(run[j], s', b);
    CertifiedView(run[i], s, a);
    CertifiedView(run[j], s', b);
    AnchoredLater(s, s', s.at[a].hist);
    var ha, hb := s.at[a].hist, s'.at[b].hist;
    TermIs(View(run[i].procs[a]), ha, x);
    TermIs(View(run[j].procs[b]), hb, x);
    if x > 0 { S.Matching(s', ha, hb, x); }
    HistoriesSame(View(run[i].procs[a]), View(run[j].procs[b]), ha, hb, x);
  }

  lemma AnchoredLater(s: P.State, s': P.State, log: Log)
    requires Later(s, s') && P.Anchored(s, log)
    ensures P.Anchored(s', log)
  {
    hide P.Anchored;
    S.AnchoredGrows(s, s', log);
  }

  /** matchIndex soundness: what a leader has counted for a peer stays on that
      peer for as long as the peer remains in the leader's term, across the
      peer's crashes and restarts. */
  lemma MatchIndexSound(run: seq<Cluster>, events: seq<Event>, limit: nat, i: nat, j: nat, a: int, p: int)
    requires IsRun(run, events, limit) && i <= j < |run| && a in run[i].procs && p in run[j].procs
    requires run[i].procs[a].Up? && run[i].procs[a].node.role == Leader && p in run[i].procs[a].node.match_
    requires Viewable(run[j].procs[p]) && View(run[j].procs[p]).term == run[i].procs[a].node.term
    ensures var x, y := run[i].procs[a].node, View(run[j].procs[p]);
      x.match_[p] <= LastIndex(x) && x.match_[p] <= LastIndex(y) && SameThrough(x, y, x.match_[p])
  {
    hide Rel, IsRun, SameThrough, P.Inv, Recover;
    var states := RunRefines(run, events, limit);
    var s, s' := states[i], states[j];
    assert Later(s, s');
    ViewFacts(run[i], s, a);
    ViewFacts(run[j], s', p);
    LeaderFacts(run[i], s, a);
    CertifiedView(run[j], s', p);
    var n := run[i].procs[a].node;
    var k := n.match_[p];
    if k > 0 {
      AckLength(s, n.term, p, k);
      AckHeld(s', n.term, p, k);
      assert s.lead[n.term] <= s'.lead[n.term];
      assert s.at[a].hist[..k] == s'.lead[n.term][..k] == s'.at[p].hist[..k];
    }
    HistoriesSame(n, View(run[j].procs[p]), s.at[a].hist, s'.at[p].hist, k);
  }

  lemma AckLength(s: P.State, t: nat, p: int, k: nat)
    requires P.Inv(s) && P.Acked(s, t, p, k)
    ensures t in s.lead && k <= |s.lead[t]|
  {
    hide P.Terms, P.Anchors, P.Roles, P.Ballots, P.Acks, P.Kept, P.VotesSafe, P.Complete, P.Commits;
  }

  lemma AckHeld(s: P.State, t: nat, p: int, k: nat)
    requires P.Inv(s) && P.Acked(s, t, p, k) && p in s.at && s.at[p].term == t
    ensures t in s.lead && k <= |s.lead[t]| && s.lead[t][..k] <= s.at[p].hist
  {
    hide P.Terms, P.Anchors, P.Roles, P.Ballots, P.Kept, P.VotesSafe, P.Complete, P.Commits;
    assert s.lead[t][..k] == s.lead[t][..s.ack[(t, p)]][..k];
  }
}
