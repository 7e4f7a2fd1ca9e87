/** A campaign that succeeds: the most recent node of a majority times out until
    its term is the latest, is granted every vote, and leads. */
module Campaigns {
  import opened Entries
  import opened Disk
  import opened Node
  import opened Cluster
  import opened Voting
  import opened Traces
  import P = Protocol

  // ---------------------------------------------------------------- standing

  /** n as a candidate in term t. */
  function StoodIn(n: Node, t: nat): Node {
    n.(term := t, votedFor := n.cfg.id, role := Candidate, leader := UNKNOWN_LEADER, granted := {},
       disk := n.disk.(stable := Stable(t, n.cfg.id, n.commit, n.applied)))
  }

  function AskFor(n: Node, t: nat): VoteReq {
    VoteReq(t, n.cfg.id, LastIndex(n), LastTermOf(n))
  }

  lemma TimesOut(n: Node)
    requires n.role != Leader && n.applied <= n.commit && 0 <= n.cfg.id
    ensures var o := React(n, Timeout);
      o.node == StoodIn(n, n.term + 1) && forall p :: p in n.cfg.peers ==> VoteAsk(p, AskFor(n, n.term + 1)) in o.reply
  {
    hide LastIndexFor, TermAt;
    SameAsk(n, n.term + 1, n.term + 1);
    var r := AskFor(n, n.term + 1);
    assert StartElection(n).reply == Some(r);
    forall p | p in n.cfg.peers ensures VoteAsk(p, r) in Asks(n, r) {}
  }

  /** c times out until its term is t; the last of its requests are on the way. */
  lemma {:induction false} Stands(tr: Trace, limit: nat, c: int, t: nat) returns (u: Trace)
    requires Legal(tr, limit) && c in End(tr).procs && End(tr).procs[c].Up?
    requires End(tr).procs[c].node.role != Leader && End(tr).procs[c].node.term < t
    ensures Legal(u, limit) && GoesOn(tr, u)
    ensures var n := End(tr).procs[c].node;
      && End(u).procs == End(tr).procs[c := Up(StoodIn(n, t))]
      && forall p :: p in End(tr).procs && p != c ==> VoteAsk(p, AskFor(n, t)) in End(u).net
    decreases t - End(tr).procs[c].node.term
  {
    hide IsRun, React, AskFor;
    var n := End(tr).procs[c].node;
    Facts(tr, limit, c);
    TimesOut(n);
    var v := Acts(tr, limit, c, Timeout);
    if n.term + 1 < t {
      u := Stands(v, limit, c, t);
      SameAsk(n, n.term + 1, t);
      assert StoodIn(StoodIn(n, n.term + 1), t) == StoodIn(n, t);
    } else {
      u := v;
    }
  }

  lemma SameAsk(n: Node, t: nat, t': nat)
    ensures AskFor(StoodIn(n, t), t') == AskFor(n, t')
  {
  }

  // ------------------------------------------------------------------ voting

  /** n having granted its vote in a later term t to c. */
  function VotedIn(n: Node, t: nat, c: int): Node {
    n.(term := t, votedFor := c, role := Follower, leader := UNKNOWN_LEADER, disk := n.disk.(stable := Stable(t, c, n.commit, n.applied)))
  }

  lemma Grants(n: Node, r: VoteReq)
    requires n.term < r.term && n.applied <= n.commit && 0 <= r.candidate
    requires AtLeastAsRecent(r.lastIndex, r.lastTerm, LastIndex(n), LastTermOf(n))
    ensures HandleVote(n, r).node == VotedIn(n, r.term, r.candidate) && HandleVote(n, r).reply == VoteResp(r.term, true)
  {
    hide LastIndexFor, TermAt;
    Voting.SameEnd(n, r.term);
  }

  /** Every one of these receives the request and grants it. */
  ghost predicate Asked(c: Cluster, q: set<int>, r: VoteReq) {
    forall v :: v in q ==>
      && v in c.procs && c.procs[v].Up? && VoteAsk(v, r) in c.net
      && c.procs[v].node.term < r.term
      && AtLeastAsRecent(r.lastIndex, r.lastTerm, LastIndex(c.procs[v].node), LastTermOf(c.procs[v].node))
  }

  lemma {:induction false} AllVote(tr: Trace, limit: nat, q: set<int>, r: VoteReq) returns (u: Trace)
    requires Legal(tr, limit) && Asked(End(tr), q, r) && 0 <= r.candidate && r.candidate !in q
    ensures Legal(u, limit) && GoesOn(tr, u) && End(u).procs.Keys == End(tr).procs.Keys && End(tr).net <= End(u).net
    ensures forall v :: v in q ==> v in End(tr).procs && End(tr).procs[v].Up? && VoteAnswer(v, r.candidate, r, VoteResp(r.term, true)) in End(u).net
    ensures forall v :: v in End(tr).procs ==>
      End(u).procs[v] == if v in q then Up(VotedIn(End(tr).procs[v].node, r.term, r.candidate)) else End(tr).procs[v]
    decreases q
  {
    hide IsRun, HandleVote, LastIndex, LastTermOf;
    if q == {} {
      u := tr;
    } else {
      var v := P.Pick(q);
      var w := AllVote(tr, limit, q - {v}, r);
      var n := End(w).procs[v].node;
      assert n == End(tr).procs[v].node;
      Facts(w, limit, v);
      Grants(n, r);
      u := Acts(w, limit, v, Receive(VoteAsk(v, r)));
    }
  }

  // ----------------------------------------------------------------- counting

  lemma Counts(n: Node, from: int, r: VoteReq)
    requires n.role == Candidate && n.term == r.term && from in n.cfg.peers && from !in n.granted
    ensures var n1 := n.(granted := n.granted + {from});
      HandleVoteResp(n, from, r, VoteResp(r.term, true)).node
        == if |n1.granted| + 1 >= Majority(n.cfg) then BecomeLeader(n1).node else n1
  {
    hide BecomeLeader;
  }

  lemma CountsOne(tr: Trace, limit: nat, c: int, v: int, r: VoteReq) returns (u: Trace)
    requires Legal(tr, limit) && c in End(tr).procs && End(tr).procs[c].Up? && v in End(tr).procs.Keys - {c}
    requires var n := End(tr).procs[c].node;
      n.role == Candidate && n.term == r.term && v !in n.granted && n.granted <= End(tr).procs.Keys - {c}
    requires VoteAnswer(v, c, r, VoteResp(r.term, true)) in End(tr).net
    ensures Legal(u, limit) && GoesOn(tr, u) && End(u).net == End(tr).net
    ensures var n1 := End(tr).procs[c].node.(granted := End(tr).procs[c].node.granted + {v});
      End(u).procs == End(tr).procs[c := Up(if P.Quorum(End(tr).procs.Keys, n1.granted + {c}) then BecomeLeader(n1).node else n1)]
  {
    hide IsRun, HandleVoteResp, BecomeLeader, P.Quorum;
    var n := End(tr).procs[c].node;
    Facts(tr, limit, c);
    Counts(n, v, r);
    Majorities(tr, limit, c, n.granted + {v});
    u := Acts(tr, limit, c, Receive(VoteAnswer(v, c, r, VoteResp(r.term, true))));
  }

  /** The answers are counted until they make a leader. */
  lemma {:induction false} AllCount(tr: Trace, limit: nat, c: int, q: set<int>, r: VoteReq) returns (u: Trace, g: set<int>)
    requires Legal(tr, limit) && c in End(tr).procs && End(tr).procs[c].Up? && q <= End(tr).procs.Keys - {c}
    requires var n := End(tr).procs[c].node;
      && n.role == Candidate && n.term == r.term && n.granted !! q && n.granted <= End(tr).procs.Keys - {c}
      && P.Quorum(End(tr).procs.Keys, n.granted + q + {c}) && !P.Quorum(End(tr).procs.Keys, n.granted + {c})
    requires forall v :: v in q ==> VoteAnswer(v, c, r, VoteResp(r.term, true)) in End(tr).net
    ensures Legal(u, limit) && GoesOn(tr, u) && End(u).net == End(tr).net
    ensures End(u).procs == End(tr).procs[c := Up(BecomeLeader(End(tr).procs[c].node.(granted := g)).node)]
    decreases q
  {
    hide IsRun, BecomeLeader, P.Quorum;
    var n := End(tr).procs[c].node;
    assert n.granted + {} + {c} == n.granted + {c};
    var v := P.Pick(q);
    g := n.granted + {v};
    u := CountsOne(tr, limit, c, v, r);
    if !P.Quorum(End(tr).procs.Keys, g + {c}) {
      assert g + (q - {v}) + {c} == n.granted + q + {c};
      assert End(u).procs.Keys == End(tr).procs.Keys;
      u, g := AllCount(u, limit, c, q - {v}, r);
    }
  }

  // ----------------------------------------------------------------- election

  /** c at least as recent as all of q. */
  ghost predicate Foremost(cl: Cluster, q: set<int>, c: int) {
    && c in q && (forall v :: v in q ==> v in cl.procs && cl.procs[v].Up?)
    && forall v :: v in q ==> Recent(cl.procs[c].node, cl.procs[v].node)
  }

  lemma {:induction false} TermAbove(cl: Cluster, q: set<int>) returns (t: nat)
    requires forall v :: v in q ==> v in cl.procs && cl.procs[v].Up?
    ensures forall v :: v in q ==> cl.procs[v].node.term < t
    decreases q
  {
    t := 1;
    if q != {} {
      var v := P.Pick(q);
      t := TermAbove(cl, q - {v});
      t := Max(t, cl.procs[v].node.term + 1);
    }
  }

  /** From any reachable state, the most recent node of a running majority can
      be elected: there is a continuation in which it stands, all of the majority
      vote for it and it leads; no one else is disturbed. */
  lemma Elects(tr: Trace, limit: nat, q: set<int>, c: int) returns (u: Trace, t: nat, g: set<int>)
    requires Legal(tr, limit) && P.Quorum(End(tr).procs.Keys, q) && Foremost(End(tr), q, c) && End(tr).procs[c].node.role != Leader
    ensures Legal(u, limit) && GoesOn(tr, u) && End(u).procs.Keys == End(tr).procs.Keys
    ensures forall v :: v in q ==> End(tr).procs[v].node.term < t
    ensures End(u).procs[c] == Up(BecomeLeader(StoodIn(End(tr).procs[c].node, t).(granted := g)).node)
    ensures forall v :: v in End(tr).procs && v != c ==>
      End(u).procs[v] == if v in q then Up(VotedIn(End(tr).procs[v].node, t, c)) else End(tr).procs[v]
  {
    hide IsRun, React, P.Quorum, BecomeLeader, LastIndex, LastTermOf;
    var n := End(tr).procs[c].node;
    t := TermAbove(End(tr), q);
    Facts(tr, limit, c);
    u := Stands(tr, limit, c, t);
    if n.cfg.peers == [] {
      u, g := ElectsAlone(u, limit, c);
    } else {
      var r := AskFor(n, t);
      assert Asked(End(u), q - {c}, r);
      var w := AllVote(u, limit, q - {c}, r);
      var m := End(w).procs[c].node;
      assert m.granted + (q - {c}) + {c} == q && m.granted + {c} == {c} && End(w).procs.Keys == End(tr).procs.Keys;
      NotAlone(tr, limit, c);
      u, g := AllCount(w, limit, c, q - {c}, r);
      assert StoodIn(n, t).granted == {};
    }
  }

  lemma NotAlone(tr: Trace, limit: nat, c: int)
    requires Legal(tr, limit) && c in End(tr).procs && End(tr).procs[c].Up? && End(tr).procs[c].node.cfg.peers != []
    ensures !P.Quorum(End(tr).procs.Keys, {c})
  {
    hide IsRun;
    Facts(tr, limit, c);
    var n := End(tr).procs[c].node;
    var p := n.cfg.peers[0];
    assert p in n.cfg.peers && p in End(tr).procs.Keys && c in End(tr).procs.Keys;
    P.Subset({c, p}, End(tr).procs.Keys);
  }

  lemma ElectsAlone(tr: Trace, limit: nat, c: int) returns (u: Trace, g: set<int>)
    requires Legal(tr, limit) && c in End(tr).procs && End(tr).procs[c].Up?
    requires End(tr).procs[c].node.cfg.peers == [] && End(tr).procs[c].node.role == Candidate
    ensures Legal(u, limit) && GoesOn(tr, u)
    ensures End(u).procs == End(tr).procs[c := Up(BecomeLeader(End(tr).procs[c].node.(granted := g)).node)]
  {
    hide IsRun, BecomeLeader;
    u := Acts(tr, limit, c, Alone);
    g := End(tr).procs[c].node.granted;
    assert End(tr).procs[c].node.(granted := g) == End(tr).procs[c].node;
  }
}
