/** Whom a node takes to lead its term is who was elected in it. Clients are
    redirected by it. */
module Hints {
  import opened Entries
  import opened Disk
  import opened Node
  import opened Relation
  import opened Replication
  import opened Snapshots
  import opened Cluster
  import opened Refinement
  import opened Cursors
  import opened Responses
  import P = Protocol

  ghost predicate Names(s: P.State, t: nat, whom: int) {
    t in s.elected && s.elected[t] == whom
  }

  /** The known leader is the elected one, and a leader knows itself. */
  ghost predicate HintOk(n: Node, s: P.State) {
    (n.leader != UNKNOWN_LEADER ==> Names(s, n.term, n.leader)) && (n.role == Leader ==> n.leader == n.cfg.id)
  }

  /** Requests carry the leader elected in their term. */
  ghost predicate SignedOk(c: Cluster, s: P.State) {
    forall m :: m in c.net && (m.AppendAsk? || m.InstallAsk?) ==> Names(s, TermOf(m), Announced(m))
  }

  ghost predicate HintsOk(c: Cluster, s: P.State) {
    && SignedOk(c, s)
    && forall id :: id in c.procs && c.procs[id].Up? ==> HintOk(c.procs[id].node, s)
  }

  lemma NamesLater(s: P.State, s': P.State, t: nat, whom: int)
    requires Names(s, t, whom) && P.Grows(s, s')
    ensures Names(s', t, whom)
  {
  }

  lemma HintLater(n: Node, s: P.State, s': P.State)
    requires HintOk(n, s) && P.Grows(s, s')
    ensures HintOk(n, s')
  {
  }

  /** A node keeps its hint, forgets it, or takes it from a request or an election. */
  predicate Rehinted(n: Node, n': Node) {
    || (n'.leader == n.leader && n'.term == n.term && (n'.role == Leader ==> n.role == Leader))
    || (n'.leader == UNKNOWN_LEADER && n'.role != Leader)
    || (n'.role == Leader && n'.leader == n'.cfg.id)
  }

  lemma QuietHint(n: Node, i: Input)
    requires !i.Receive?
    ensures Rehinted(n, React(n, i).node)
  {
    if i.Alone? {
      hide Perform, Uniform, LastIndex;
    } else if i.Timeout? {
      hide Perform, LastTermOf, LastIndex, Asks;
    } else {
      hide React;
      QuietLeads(n, i);
    }
  }

  lemma AnswerHint(n: Node, m: Msg)
    requires n.applied <= n.commit && (m.VoteAnswer? || m.AppendAnswer? || m.InstallAnswer?)
    ensures Rehinted(n, OnMessage(n, m).node)
  {
    hide Perform, CommitPoint, Uniform, LastIndex;
  }

  lemma AskHint(n: Node, m: Msg)
    requires n.applied <= n.commit && (m.VoteAsk? || m.AppendAsk? || m.InstallAsk?)
    ensures var n' := OnMessage(n, m).node;
      Rehinted(n, n') || (!m.VoteAsk? && n'.leader == Announced(m) && n'.term == TermOf(m) && n'.role == Follower)
  {
    hide OnMessage;
    AskRule(n, m);
    if TermOf(m) == n.term { SameTermRule(n, m); }
  }

  lemma ReactHint(c: Cluster, n: Node, id: int, s: P.State, i: Input, s': P.State)
    requires P.Inv(s) && NodeRel(n, id, s) && SignedOk(c, s) && Enabled(c, n, i) && HintOk(n, s) && P.Grows(s, s')
    requires P.Inv(s') && NodeRel(React(n, i).node, id, s')
    ensures HintOk(React(n, i).node, s')
  {
    hide P.Inv, NodeRel, React, Names, Rehinted;
    NodeBasics(n, id, s);
    LimitIs(n, id, s);
    var n' := React(n, i).node;
    LimitIs(n', id, s');
    if i.Receive? {
      ReceiveIs(n, i.msg);
      if i.msg.VoteAnswer? || i.msg.AppendAnswer? || i.msg.InstallAnswer? { AnswerHint(n, i.msg); } else { AskHint(n, i.msg); }
      if i.msg.AppendAsk? || i.msg.InstallAsk? { NamesLater(s, s', TermOf(i.msg), Announced(i.msg)); }
    } else {
      QuietHint(n, i);
    }
    if Rehinted(n, n') { Rehints(n, n', id, s, s'); }
  }

  lemma ReceiveIs(n: Node, m: Msg)
    ensures React(n, Receive(m)).node == OnMessage(n, m).node
  {
    hide OnMessage;
  }

  lemma Rehints(n: Node, n': Node, id: int, s: P.State, s': P.State)
    requires P.Inv(s') && NodeRel(n', id, s') && HintOk(n, s) && P.Grows(s, s') && Rehinted(n, n') && n'.cfg.id == n.cfg.id == id
    ensures HintOk(n', s')
  {
    hide P.Inv, NodeRel;
    NodeBasics(n', id, s');
    if n'.role == Leader { LeaderLog(s', id); }
  }

  lemma ReactSigns(n: Node, i: Input, m: Msg)
    requires m in React(n, i).reply && (m.AppendAsk? || m.InstallAsk?)
    ensures n.role == Leader && TermOf(m) == n.term && Announced(m) == n.cfg.id
  {
    hide HandleVote, HandleVoteResp, HandleAppend, HandleAppendResp, HandleInstall, HandleInstallResp, StartElection, WinAlone, Propose,
      Pick, RunEntry, Publish, Capture, SaveImage, PublishImage, TermAt, EntriesFrom, LastIndex;
  }

  lemma StepHints(c: Cluster, e: Event, c': Cluster, s: P.State, s': P.State)
    requires Rel(c, s) && Rel(c', s') && Later(s, s') && Next(c, e, c') && HintsOk(c, s)
    ensures HintsOk(c', s')
  {
    hide React, Recover, PerformAll, Enabled, P.Inv, HintOk, Names, Rel, NodeRel;
    forall m | m in c'.net && (m.AppendAsk? || m.InstallAsk?) ensures Names(s', TermOf(m), Announced(m)) {
      if m !in c.net {
        UpNode(c, s, e.id);
        ReactSigns(c.procs[e.id].node, e.input, m);
        Signs(c.procs[e.id].node, e.id, s);
      }
      NamesLater(s, s', TermOf(m), Announced(m));
    }
    forall id | id in c'.procs && c'.procs[id].Up? ensures HintOk(c'.procs[id].node, s') {
      if e.id == id && e.Run? {
        UpNode(c, s, id);
        UpNode(c', s', id);
        ReactHint(c, c.procs[id].node, id, s, e.input, s');
      } else if e.id == id && e.Start? {
        BootHint(c.procs[id].cfg, c.procs[id].disk, s');
      } else {
        HintLater(c.procs[id].node, s, s');
      }
    }
  }

  lemma Signs(n: Node, id: int, s: P.State)
    requires P.Inv(s) && NodeRel(n, id, s) && n.role == Leader
    ensures Names(s, n.term, n.cfg.id)
  {
    hide P.Inv, NodeRel;
    NodeBasics(n, id, s);
    LimitIs(n, id, s);
    LeaderLog(s, id);
  }

  lemma BootHint(cfg: Config, d: Disk, s: P.State)
    ensures Recover(cfg, d).Booted? ==> HintOk(Recover(cfg, d).node, s)
  {
    hide Replay, Reconcile, Loadable, FollowsBoundary, PerformAll, Perform;
  }

  lemma {:induction false} AlwaysHinted(run: seq<Cluster>, events: seq<Event>, limit: nat, states: seq<P.State>, i: nat)
    requires IsRun(run, events, limit) && i < |run| == |states| && (forall k :: 0 <= k < |run| ==> Rel(run[k], states[k]))
    requires forall k, j :: 0 <= k <= j < |run| ==> Later(states[k], states[j])
    ensures HintsOk(run[i], states[i])
    decreases i
  {
    hide Rel, Next, HintsOk, Init, Later;
    if i == 0 {
      NoHints(run[0], limit, states[0]);
    } else {
      AlwaysHinted(run, events, limit, states, i - 1);
      StepHints(run[i - 1], events[i - 1], run[i], states[i - 1], states[i]);
    }
  }

  lemma NoHints(c: Cluster, limit: nat, s: P.State)
    requires Init(c, limit)
    ensures HintsOk(c, s)
  {
  }

  /** At any two moments of a run, a node that names a leader for its term names
      the one that leads it, a leader names itself, and two nodes that name a
      leader for one term name the same. */
  lemma LeaderHint(run: seq<Cluster>, events: seq<Event>, limit: nat, i: nat, j: nat, a: int, b: int)
    requires IsRun(run, events, limit) && i < |run| && j < |run| && a in run[i].procs && b in run[j].procs
    requires run[i].procs[a].Up? && run[j].procs[b].Up? && run[i].procs[a].node.term == run[j].procs[b].node.term
    ensures var x, y := run[i].procs[a].node, run[j].procs[b].node;
      && (x.role == Leader ==> x.leader == a)
      && (x.leader != UNKNOWN_LEADER && y.role == Leader ==> x.leader == b)
      && (x.leader != UNKNOWN_LEADER && y.leader != UNKNOWN_LEADER ==> x.leader == y.leader)
  {
    hide IsRun, Rel, P.Inv, NodeRel;
    var states := RunRefines(run, events, limit);
    AlwaysHinted(run, events, limit, states, i);
    AlwaysHinted(run, events, limit, states, j);
    var k := Max(i, j);
    assert Later(states[i], states[k]) && Later(states[j], states[k]);
    UpNode(run[i], states[i], a);
    UpNode(run[j], states[j], b);
    LimitIs(run[i].procs[a].node, a, states[i]);
    LimitIs(run[j].procs[b].node, b, states[j]);
    HintLater(run[i].procs[a].node, states[i], states[k]);
    HintLater(run[j].procs[b].node, states[j], states[k]);
    if run[j].procs[b].node.role == Leader {
      Signs(run[j].procs[b].node, b, states[j]);
      NamesLater(states[j], states[k], run[j].procs[b].node.term, b);
    }
  }
}
