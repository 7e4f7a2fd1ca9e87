/** What a node owes every message: it adopts a later term and follows,
    ignores an earlier one, and answers with its own; and what leaders learn
    from the answers. */
module Responses {
  import opened Entries
  import opened KvStore
  import opened Disk
  import opened Node
  import opened Relation
  import opened Replication
  import opened Snapshots
  import opened Cluster
  import opened Refinement
  import Elections
  import opened Progress
  import opened Cursors
  import P = Protocol

  // ------------------------------------------------------------------- terms

  /** The term a message carries to its receiver. */
  function TermOf(m: Msg): nat {
    match m
    case VoteAsk(_, req) => req.term
    case VoteAnswer(_, _, _, resp) => resp.term
    case AppendAsk(_, req) => req.term
    case AppendAnswer(_, _, _, resp) => resp.term
    case InstallAsk(_, req) => req.term
    case InstallAnswer(_, _, _, resp) => resp.term
  }

  /** Who the receiver then takes to lead the term. */
  function Announced(m: Msg): int {
    match m
    case AppendAsk(_, req) => req.leader
    case InstallAsk(_, req) => req.leader
    case _ => UNKNOWN_LEADER
  }

  predicate Refusal(m: Msg) {
    (m.VoteAnswer? ==> !m.voteResp.granted) && (m.AppendAnswer? ==> !m.appendResp.success)
  }

  /** n' has adopted term t, following whom, with its vote free or just cast. */
  predicate Adopted(n': Node, t: nat, whom: int, m: Msg) {
    n'.term == t && n'.role == Follower && n'.leader == whom && (n'.votedFor == NO_VOTE || (m.VoteAsk? && n'.votedFor == m.vote.candidate))
  }

  lemma AskRule(n: Node, m: Msg)
    requires n.applied <= n.commit && (m.VoteAsk? || m.AppendAsk? || m.InstallAsk?)
    ensures var o := OnMessage(n, m); var t := TermOf(m);
      && o.node.term == Max(n.term, t)
      && (t > n.term ==> Adopted(o.node, t, Announced(m), m))
      && (t < n.term ==> o.node == n && forall x :: x in o.reply ==> Refusal(x))
      && (forall x :: x in o.reply ==> TermOf(x) == o.node.term)
  {
    hide AppendInTerm, InstallInTerm, UpToDate, Perform;
    match m {
      case VoteAsk(_, req) =>
      case AppendAsk(_, req) =>
        AppendKeepsTerm(n, req);
        AppendKeepsTerm(BecomeFollower(n, req.term, req.leader).node, req);
      case InstallAsk(_, req) =>
        InstallKeepsTerm(n, req);
        InstallKeepsTerm(BecomeFollower(n, req.term, req.leader).node, req);
    }
  }

  lemma AnswerRule(n: Node, m: Msg)
    requires n.applied <= n.commit && (m.VoteAnswer? || m.AppendAnswer? || m.InstallAnswer?)
    ensures var o := OnMessage(n, m); var t := TermOf(m);
      && o.node.term == Max(n.term, t)
      && (t > n.term ==> Adopted(o.node, t, Announced(m), m))
      && (t < n.term ==> o.node == n)
      && o.reply == {}
  {
    hide Perform, CommitPoint, Uniform, LastIndex;
  }

  /** Every message a node of a run may receive: a later term is adopted, in
      memory and on disk, as a follower, with the vote free or just cast for the
      asking candidate; an earlier one changes nothing and is refused; every
      answer carries the term the node is then in. */
  lemma TermRule(run: seq<Cluster>, events: seq<Event>, limit: nat, i: nat, id: int, m: Msg)
    requires IsRun(run, events, limit) && i < |run| && id in run[i].procs && run[i].procs[id].Up?
    requires Enabled(run[i], run[i].procs[id].node, Receive(m))
    ensures var n := run[i].procs[id].node; var o := OnMessage(n, m); var t := TermOf(m);
      && o.node.term == Max(n.term, t) && o.node.disk.stable == StableOf(o.node)
      && (t > n.term ==> Adopted(o.node, t, Announced(m), m))
      && (t < n.term ==> o.node == n && forall x :: x in o.reply ==> Refusal(x))
      && (forall x :: x in o.reply ==> TermOf(x) == o.node.term)
  {
    hide IsRun, P.Inv, NodeRel, OnMessage, Enabled, NetRel, Rel, Adopted;
    var s := Reached(run, events, limit, i, id);
    var n := run[i].procs[id].node;
    UpNode(run[i], s, id);
    NodeBasics(n, id, s);
    LimitIs(n, id, s);
    var s' := Reacts(run[i], n, id, s, Receive(m));
    DiskStable(OnMessage(n, m).node, id, s');
    if m.VoteAsk? || m.AppendAsk? || m.InstallAsk? { AskRule(n, m); } else { AnswerRule(n, m); }
  }

  /** In the sender's own term, a request makes its receiver a follower of the
      sender, and a RequestVote leaves role and leader alone. */
  lemma SameTermRule(n: Node, m: Msg)
    requires TermOf(m) == n.term
    ensures m.AppendAsk? || m.InstallAsk? ==> var n' := OnMessage(n, m).node; n'.role == Follower && n'.leader == Announced(m) && n'.votedFor == n.votedFor
    ensures m.VoteAsk? ==> var n' := OnMessage(n, m).node; n'.role == n.role && n'.leader == n.leader
  {
    hide AppendInTerm, InstallInTerm, UpToDate, Perform;
    match m {
      case AppendAsk(_, req) => AppendKeepsTerm(n, req);
      case InstallAsk(_, req) => InstallKeepsTerm(n, req);
      case _ =>
    }
  }

  /** For every snapshot of the node's or a later term, well formed or not: it
      is refused if and only if it has no bytes or no proper boundary, or is news
      and holds a pair the store would not accept; refused, it leaves log,
      boundary, indexes and store in memory as they were. */
  lemma InstallRefusedIff(n: Node, r: InstallReq)
    requires n.term <= r.term && n.applied <= n.commit && NO_VOTE <= n.votedFor
    ensures HandleInstall(n, r).reply.None? <==>
      || r.data.NoBytes? || (r.index == 0 && r.lastTerm != 0)
      || (r.index > n.applied && exists k :: k in r.data.kv && (k == "" || |r.data.kv[k]| > n.cfg.limit))
    ensures HandleInstall(n, r).reply.None? ==>
      var n' := HandleInstall(n, r).node;
      n' == n.(term := r.term, votedFor := n'.votedFor, role := Follower, leader := r.leader, disk := n'.disk)
  {
    hide KeptSuffix, PerformAll, Perform;
  }

  // -------------------------------------------------------------- answers

  /** Only p's cursor and count may differ. */
  ghost predicate OnlyPeer(n: Node, n': Node, p: int) {
    && n'.role == n.role && n'.term == n.term && n'.log == n.log && n'.meta == n.meta
    && forall q :: q != p ==> At(n'.next, q) == At(n.next, q) && At(n'.match_, q) == At(n.match_, q)
  }

  /** What a leader learns from a current-term answer: a success counts the peer
      for all that was sent and moves its cursor past it, a refusal moves the
      cursor back by one unless it is at the first index, a snapshot answer
      counts the peer for the snapshot. Only a moved cursor is retried. */
  lemma AnswersCount(n: Node, p: int, a: AppendReq, ok: bool, r: InstallReq)
    requires n.role == Leader && a.term == r.term == n.term
    ensures var o := HandleAppendResp(n, p, a, AppendResp(n.term, ok)); var reach := a.prevIndex + |a.entries|;
      && OnlyPeer(n, o.node, p)
      && (ok ==> !o.reply && At(o.node.match_, p) == Max(At(n.match_, p), reach) && At(o.node.next, p) == Max(At(n.next, p), At(o.node.match_, p) + 1))
      && (!ok ==> o.node.match_ == n.match_ && o.node.commit == n.commit)
      && (!ok && At(n.next, p) > 1 ==> o.reply && At(o.node.next, p) == At(n.next, p) - 1)
      && (!ok && At(n.next, p) <= 1 ==> !o.reply && o.node == n)
    ensures var o := HandleInstallResp(n, p, r, InstallResp(n.term));
      && OnlyPeer(n, o.node, p) && o.reply && o.node.commit == n.commit
      && At(o.node.match_, p) == r.index && At(o.node.next, p) == r.index + 1
  {
    hide CommitPoint, Perform, LastIndex;
  }

  // -------------------------------------------------------------- requests

  /** A leader has a request for every other node: the entries from its cursor
      on if they are still in the log, the snapshot if they are not. */
  lemma SendsIff(run: seq<Cluster>, events: seq<Event>, limit: nat, i: nat, a: int, b: int, snap: Snapshot)
    requires IsRun(run, events, limit) && i < |run| && Leads(run[i], a) && b in run[i].procs && b != a
    ensures var n := run[i].procs[a].node; var r, t := BuildAppend(n, b), BuildInstall(n, b, Some(snap));
      && b in n.next
      && (r.Some? <==> n.meta.index < n.next[b])
      && (r.Some? ==>
            && r.value.term == n.term && r.value.leader == a && r.value.commit == n.commit && r.value.prevIndex == n.next[b] - 1
            && TermAt(n, r.value.prevIndex) == Some(r.value.prevTerm) && r.value.prevIndex + |r.value.entries| == LastIndex(n)
            && HoldsAll(n, r.value))
      && (t.Some? <==> n.next[b] <= n.meta.index == snap.index && n.meta.term == snap.term)
      && (t.Some? ==> t.value == InstallReq(n.term, a, snap.index, snap.term, snap.data))
  {
    hide IsRun, P.Inv, Rel, CursorsOk, TermAt, EntriesFrom, EntryAt, LastIndexFor, P.Certified, P.Anchored, AllFit, Indexed, SuffixOf;
    var s := Reached(run, events, limit, i, a);
    var n := run[i].procs[a].node;
    UpNode(run[i], s, a);
    CursorsInRange(run, events, limit, i);
    CursorHere(run[i], n, a, s, b);
    Sends(n, a, s, b);
  }

  lemma CursorHere(c: Cluster, n: Node, a: int, s: P.State, b: int)
    requires Rel(c, s) && NodeRel(n, a, s) && CursorsOk(n) && n.role == Leader && b in c.procs && b != a
    ensures b in n.next && 1 <= n.next[b] <= LastIndex(n) + 1 && n.cfg.id == a
  {
    hide P.Inv, NetRel, ProcRel, MemberRel, Mirror, RoleRel, PhaseRel, SnapRel, LastIndex, P.Certified, P.Anchored, P.Below;
    MemberHistory(s, a);
    Elections.PeerIsNode(n.cfg, a, s, b);
  }

  lemma Sends(n: Node, a: int, s: P.State, b: int)
    requires P.Inv(s) && NodeRel(n, a, s) && n.role == Leader && b in n.next && 1 <= n.next[b] <= LastIndex(n) + 1 && n.cfg.id == a
    ensures var r := BuildAppend(n, b);
      && (r.Some? <==> n.meta.index < n.next[b])
      && (r.Some? ==>
            && r.value.term == n.term && r.value.leader == a && r.value.commit == n.commit && r.value.prevIndex == n.next[b] - 1
            && TermAt(n, r.value.prevIndex) == Some(r.value.prevTerm) && r.value.prevIndex + |r.value.entries| == LastIndex(n)
            && HoldsAll(n, r.value))
  {
    hide P.Inv, PhaseRel, CfgRel, Mirror, RoleRel, TermAt, EntriesFrom, EntryAt, LastIndex, P.Certified, P.Anchored, AllFit, SuffixOf, Indexed;
    MemberHistory(s, a);
    var h, k := s.at[a].hist, n.next[b];
    LastIs(n, h);
    if n.meta.index < k {
      TermIs(n, h, k - 1);
      EntriesAre(n, h, k);
      var es := h[k - 1..];
      forall y | 0 <= y < |es| ensures EntryAt(n, k + y) == Some(es[y]) { EntryIs(n, h, k + y); }
    }
  }
}
