/** When a vote is granted, that any set of running nodes can agree on one of
    its own, and when counted votes make a leader. */
module Voting {
  import opened Entries
  import opened Disk
  import opened Node
  import opened Relation
  import opened Elections
  import opened Replication
  import opened Snapshots
  import opened Cluster
  import opened Refinement
  import opened Safety
  import opened Progress
  import opened Cursors
  import P = Protocol
  import S = ProtocolSteps

  /** The voter has not spent its vote in the request's term on someone else. */
  predicate Free(n: Node, req: VoteReq) {
    req.term > n.term || n.votedFor == NO_VOTE || n.votedFor == req.candidate
  }

  // ---------------------------------------------------------- granting votes

  lemma GrantsIff(n: Node, req: VoteReq)
    requires n.applied <= n.commit && req.term >= n.term && 0 <= req.candidate
    ensures HandleVote(n, req).reply ==
      VoteResp(req.term, Free(n, req) && AtLeastAsRecent(req.lastIndex, req.lastTerm, LastIndex(n), LastTermOf(n)))
  {
    hide Perform, LastTermOf, LastIndex;
    SameEnd(n, req.term);
  }

  lemma SameEnd(n: Node, t: nat)
    ensures var n' := BecomeFollower(n, t, UNKNOWN_LEADER).node; LastIndex(n') == LastIndex(n) && LastTermOf(n') == LastTermOf(n)
  {
    hide Perform;
  }

  lemma StoodLog(s: P.State, t: nat, c: int)
    requires P.Inv(s) && (t, c) in s.stood
    ensures P.Anchored(s, s.stood[(t, c)])
  {
    hide P.Shape, P.Terms, P.Roles, P.Ballots, P.Acks, P.Kept, P.VotesSafe, P.Complete, P.Commits;
  }

  /** At least as recent means: ending in a later term, or holding the other log. */
  lemma RecentIff(s: P.State, h: Log, c: Log)
    requires P.Inv(s) && P.Anchored(s, h) && P.Anchored(s, c)
    ensures AtLeastAsRecent(|c|, LastTerm(c), |h|, LastTerm(h)) <==> LastTerm(h) < LastTerm(c) || h <= c
  {
    hide P.Inv;
    LeadTerms(s);
    if h != [] && h <= c {
      S.TermsRise(s, c, |h| - 1, |c| - 1);
    }
    if h != [] && c != [] && LastTerm(h) == LastTerm(c) && |h| <= |c| {
      assert h[..|h| - 1 + 1] == h && c[..|c| - 1 + 1] == c;
      PrefixesNest(h, c, s.lead[LastTerm(c)]);
    }
  }

  /** In every run, a RequestVote of the voter's or a later term is granted if
      and only if the vote is free and the candidate's log, as it was when it
      stood, ends in a later term or holds all of the voter's. */
  lemma VoteGrantedIff(run: seq<Cluster>, events: seq<Event>, limit: nat, i: nat, id: int, m: Msg) returns (s: P.State)
    requires IsRun(run, events, limit) && i < |run| && id in run[i].procs && run[i].procs[id].Up?
    requires m in run[i].net && m.VoteAsk? && m.vote.term >= run[i].procs[id].node.term
    ensures Rel(run[i], s) && id in s.at && (m.vote.term, m.vote.candidate) in s.stood
    ensures var n, r := run[i].procs[id].node, m.vote; var mine, theirs := s.at[id].hist, s.stood[(r.term, r.candidate)];
      HandleVote(n, r).reply == VoteResp(r.term, Free(n, r) && (LastTerm(mine) < LastTerm(theirs) || mine <= theirs))
  {
    hide IsRun, P.Inv, PhaseRel, CfgRel, Mirror, RoleRel, HandleVote, LastIndex, LastTermOf, P.Certified, P.Anchored, AllFit, SuffixOf, Init;
    s := Reached(run, events, limit, i, id);
    assert MsgRel(m, s);
    var n, r := run[i].procs[id].node, m.vote;
    UpNode(run[i], s, id);
    NodeBasics(n, id, s);
    MemberHistory(s, id);
    LastIs(n, s.at[id].hist);
    StoodLog(s, r.term, r.candidate);
    RecentIff(s, s.at[id].hist, s.stood[(r.term, r.candidate)]);
    GrantsIff(n, r);
  }

  /** Told on two nodes: whoever holds a voter's last entry gets its vote, in
      any term in which that vote is free. */
  lemma HolderGranted(run: seq<Cluster>, events: seq<Event>, limit: nat, i: nat, a: int, b: int, t: nat)
    requires IsRun(run, events, limit) && i < |run| && a in run[i].procs && b in run[i].procs
    requires run[i].procs[a].Up? && run[i].procs[b].Up? && t >= run[i].procs[b].node.term
    requires var c, v := run[i].procs[a].node, run[i].procs[b].node;
      TermAt(c, LastIndex(v)) == Some(LastTermOf(v)) && Free(v, VoteReq(t, a, LastIndex(c), LastTermOf(c)))
    ensures var c, v := run[i].procs[a].node, run[i].procs[b].node;
      SameThrough(c, v, LastIndex(v)) && HandleVote(v, VoteReq(t, a, LastIndex(c), LastTermOf(c))).reply == VoteResp(t, true)
  {
    hide IsRun, P.Inv, PhaseRel, CfgRel, Mirror, RoleRel, HandleVote, LastIndex, LastTermOf, TermAt, SameThrough, P.Certified, P.Anchored, AllFit, Rel, SuffixOf;
    var s := Reached(run, events, limit, i, a);
    var c, v := run[i].procs[a].node, run[i].procs[b].node;
    UpNode(run[i], s, a);
    UpNode(run[i], s, b);
    MemberHistory(s, a);
    MemberHistory(s, b);
    var hc, hv := s.at[a].hist, s.at[b].hist;
    LastIs(c, hc);
    LastIs(v, hv);
    TermIs(c, hc, |hv|);
    if hv != [] { S.Matching(s, hc, hv, |hv|); }
    assert hv[..|hv|] == hv && hc[..|hv|] == hv;
    HistoriesSame(c, v, hc, hv, |hv|);
    RecentIff(s, hv, hc);
    NodeBasics(v, b, s);
    GrantsIff(v, VoteReq(t, a, LastIndex(c), LastTermOf(c)));
  }

  // ------------------------------------------------- someone can be elected

  predicate Recent(c: Node, v: Node) {
    AtLeastAsRecent(LastIndex(c), LastTermOf(c), LastIndex(v), LastTermOf(v))
  }

  /** Of any nodes, one is at least as recent as all. */
  lemma {:induction false} MostRecent(ns: map<int, Node>, q: set<int>) returns (c: int)
    requires q != {} && q <= ns.Keys
    ensures c in q && forall v :: v in q ==> Recent(ns[c], ns[v])
    decreases q
  {
    hide LastIndex, LastTermOf;
    var x := P.Pick(q);
    if q == {x} {
      c := x;
    } else {
      var rest := q - {x};
      c := MostRecent(ns, rest);
      if !Recent(ns[c], ns[x]) { c := x; }
    }
  }

  function UpNodes(c: Cluster): map<int, Node> {
    map id | id in c.procs && c.procs[id].Up? :: c.procs[id].node
  }

  /** In every reachable state, any set of running nodes has a member whose
      candidacy, in any term later than a voter's, every one of them grants. */
  lemma Electable(run: seq<Cluster>, events: seq<Event>, limit: nat, i: nat, q: set<int>) returns (c: int)
    requires IsRun(run, events, limit) && i < |run| && q != {} && (forall v :: v in q ==> v in run[i].procs && run[i].procs[v].Up?)
    ensures c in q && c in run[i].procs && run[i].procs[c].Up?
    ensures forall v, t: nat :: v in q && t > run[i].procs[v].node.term ==>
      var n := run[i].procs[c].node; HandleVote(run[i].procs[v].node, VoteReq(t, c, LastIndex(n), LastTermOf(n))).reply == VoteResp(t, true)
  {
    hide IsRun, HandleVote, LastIndex, LastTermOf, Rel, P.Inv, NodeRel;
    var ns := UpNodes(run[i]);
    assert forall v :: v in q ==> v in ns;
    c := MostRecent(ns, q);
    var n := run[i].procs[c].node;
    forall v, t: nat | v in q && t > run[i].procs[v].node.term
      ensures HandleVote(run[i].procs[v].node, VoteReq(t, c, LastIndex(n), LastTermOf(n))).reply == VoteResp(t, true)
    {
      var s := Reached(run, events, limit, i, v);
      UpNode(run[i], s, v);
      NodeBasics(run[i].procs[v].node, v, s);
      IdIsNat(run[i], s, c);
      assert Recent(ns[c], ns[v]);
      GrantsIff(run[i].procs[v].node, VoteReq(t, c, LastIndex(n), LastTermOf(n)));
    }
  }

  lemma IdIsNat(c: Cluster, s: P.State, id: int)
    requires Rel(c, s) && id in c.procs
    ensures 0 <= id && id in s.nodes && c.procs.Keys == s.nodes
  {
    hide P.Inv, NetRel, ProcRel, P.Certified, P.Anchored, P.Below;
    MemberHistory(s, id);
  }

  // --------------------------------------------------------- counting votes

  /** A candidate that is granted a vote in its term leads if and only if the
      voters it has heard from, with itself, are a quorum; else it goes on. */
  lemma LeadsIff(run: seq<Cluster>, events: seq<Event>, limit: nat, i: nat, id: int, m: Msg)
    requires IsRun(run, events, limit) && i < |run| && id in run[i].procs && run[i].procs[id].Up?
    requires m in run[i].net && m.VoteAnswer? && m.to == id && m.voteResp.granted && m.from in run[i].procs && m.from != id
    requires var n := run[i].procs[id].node; n.role == Candidate && n.term == m.vote.term == m.voteResp.term && m.from !in n.granted
    ensures var n := run[i].procs[id].node; var n', voters := OnMessage(n, m).node, n.granted + {m.from};
      && n'.term == n.term && n'.granted == voters
      && (if P.Quorum(run[i].procs.Keys, voters + {id}) then n'.role == Leader else n' == n.(granted := voters))
  {
    hide IsRun, P.Inv, NetRel, MemberRel, PhaseRel, Mirror, SnapRel, P.Quorum, Perform, Uniform, LastIndex, Rel;
    var s := Reached(run, events, limit, i, id);
    var n := run[i].procs[id].node;
    UpNode(run[i], s, id);
    IdIsNat(run[i], s, id);
    PeerIsNode(n.cfg, id, s, m.from);
    MajorityIsQuorum(n.cfg, id, s, n.granted + {m.from});
  }

  /** A node that is not leading and times out stands in the next term with its
      own vote, and asks every other node with the end of its own log. */
  lemma StandsAndAsks(run: seq<Cluster>, events: seq<Event>, limit: nat, i: nat, id: int)
    requires IsRun(run, events, limit) && i < |run| && id in run[i].procs && run[i].procs[id].Up? && run[i].procs[id].node.role != Leader
    ensures var n := run[i].procs[id].node; var o := React(n, Timeout); var r := VoteReq(n.term + 1, id, LastIndex(n), LastTermOf(n));
      && o.node.term == n.term + 1 && o.node.votedFor == id && o.node.role == Candidate && o.node.granted == {} && o.node.log == n.log
      && o.reply == set p | p in run[i].procs && p != id :: VoteAsk(p, r)
  {
    hide IsRun, P.Inv, NetRel, MemberRel, PhaseRel, Mirror, SnapRel, RoleRel, Perform, LastIndexFor, Rel, TermAt;
    var s := Reached(run, events, limit, i, id);
    var n := run[i].procs[id].node;
    UpNode(run[i], s, id);
    NodeBasics(n, id, s);
    IdIsNat(run[i], s, id);
    forall p ensures p in n.cfg.peers <==> p in run[i].procs && p != id { PeerIsNode(n.cfg, id, s, p); }
    SameStand(n);
  }

  lemma SameStand(n: Node)
    ensures var n' := BecomeCandidate(n).node; LastIndex(n') == LastIndex(n) && LastTermOf(n') == LastTermOf(n) && n'.log == n.log
  {
    hide Perform;
  }

  /** Without an answer only a candidate without peers comes to lead. */
  lemma AloneIff(n: Node)
    ensures React(n, Alone).node.role == Leader <==> n.role == Leader || (n.role == Candidate && n.cfg.peers == [])
    ensures React(n, Alone).node.role != Leader ==> React(n, Alone).node == n
  {
    hide Perform, LastIndex, Uniform;
  }
}
