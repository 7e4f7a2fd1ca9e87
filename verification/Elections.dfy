/** Term changes, candidacies, votes and election wins of a concrete node are
    protocol steps. */
module Elections {
  import opened Entries
  import opened KvStore
  import opened Disk
  import opened Node
  import opened Relation
  import P = Protocol
  import S = ProtocolSteps
  import K = ProtocolKeeps
  import L = ProtocolLogs

  /** s' is a later protocol state in which only member id may have changed,
      and its term and commit index did not go back. */
  ghost predicate Moves(s: P.State, s': P.State, id: int) {
    && P.Inv(s') && P.Grows(s, s') && s'.at.Keys == s.at.Keys
    && (id in s.at ==> s.at[id].term <= s'.at[id].term && s.at[id].commit <= s'.at[id].commit)
    && forall m :: m in s.at && m != id ==> s'.at[m] == s.at[m]
  }

  lemma MovesTwice(s: P.State, s': P.State, s'': P.State, id: int)
    requires Moves(s, s', id) && Moves(s', s'', id)
    ensures Moves(s, s'', id)
  {
    hide P.Inv;
  }

  /** A new term, vote and role, saved to disk, keep the rest of the relation. */
  lemma Restamped(n: Node, id: int, s: P.State, s': P.State, n': Node)
    requires NodeRel(n, id, s) && P.Grows(s, s') && id in s'.at && s'.done == s.done
    requires s'.at[id] == s.at[id].(term := n'.term, vote := n'.votedFor, role := n'.role)
    requires n' == n.(term := n'.term, votedFor := n'.votedFor, role := n'.role, leader := n'.leader,
                      granted := n'.granted, disk := Perform(n.disk, SaveStable(StableOf(n'))))
    requires NO_VOTE <= n'.votedFor && RoleRel(n', id, s')
    ensures NodeRel(n', id, s')
  {
    assert PhaseRel(n', s'.done) by { hide CfgRel, MemberRel, RoleRel, SnapRel, Fold; }
  }

  lemma FollowNewTerm(n: Node, id: int, s: P.State, t: nat, leader: int) returns (s': P.State)
    requires P.Inv(s) && NodeRel(n, id, s) && n.term < t
    ensures var o := BecomeFollower(n, t, leader);
      && Moves(s, s', id) && NodeRel(o.node, id, s') && o.reply
      && o.writes == [SaveStable(Stable(t, NO_VOTE, n.commit, n.applied))] && o.node.disk == Perform(n.disk, o.writes[0])
      && s'.at[id].role == Follower && o.node.term == t && s'.at[id].hist == s.at[id].hist
  {
    hide P.Inv;
    s' := S.Bump(s, id, t);
    K.BumpKeeps(s, id, t);
    Restamped(n, id, s, s', BecomeFollower(n, t, leader).node);
  }

  lemma FollowSameTerm(n: Node, id: int, s: P.State, leader: int) returns (s': P.State)
    requires P.Inv(s) && NodeRel(n, id, s)
    ensures Moves(s, s', id) && NodeRel(n.(role := Follower, leader := leader), id, s')
    ensures s' == S.Rest(s, id)
  {
    hide P.Inv;
    s' := S.Rest(s, id);
    K.RestKeeps(s, id);
  }

  lemma Standing(n: Node, id: int, s: P.State) returns (s': P.State)
    requires P.Inv(s) && NodeRel(n, id, s) && n.role != Leader
    ensures var o := StartElection(n);
      && Moves(s, s', id) && NodeRel(o.node, id, s') && |o.writes| == 1
      && o.reply.Some? && o.reply.value.term == o.node.term && o.reply.value.candidate == id
      && VoteReqRel(o.reply.value, s')
  {
    hide P.Inv;
    MemberHistory(s, id);
    s' := S.Stand(s, id);
    K.StandKeeps(s, id);
    var n' := StartElection(n).node;
    LastIs(n, s.at[id].hist);
    Restamped(n, id, s, s', n');
    LastIs(n', s.at[id].hist);
  }

  ghost predicate VoteReqRel(r: VoteReq, s: P.State) {
    && (r.term, r.candidate) in s.stood && r.candidate in s.nodes && 0 <= r.candidate
    && r.lastIndex == |s.stood[(r.term, r.candidate)]|
    && r.lastTerm == LastTerm(s.stood[(r.term, r.candidate)])
  }

  ghost predicate VoteRespRel(from: int, req: VoteReq, resp: VoteResp, s: P.State) {
    resp.granted ==> (req.term, from) in s.ballot && s.ballot[(req.term, from)] == req.candidate
  }

  lemma VotingInTerm(n: Node, id: int, s: P.State, req: VoteReq) returns (s': P.State)
    requires P.Inv(s) && NodeRel(n, id, s) && VoteReqRel(req, s) && req.term == n.term
    ensures var o := VoteInTerm(n, req);
      Moves(s, s', id) && NodeRel(o.node, id, s') && |o.writes| <= 1 && VoteRespRel(id, req, o.reply, s')
  {
    hide P.Inv, PhaseRel, CfgRel, Mirror, RoleRel, UpToDate;
    var o := VoteInTerm(n, req);
    if o.reply.granted && n.votedFor != req.candidate {
      s' := NewVote(n, id, s, req);
    } else {
      s' := s;
      if o.reply.granted { VoteIsBallot(s, id); }
    }
  }

  lemma NewVote(n: Node, id: int, s: P.State, req: VoteReq) returns (s': P.State)
    requires P.Inv(s) && NodeRel(n, id, s) && VoteReqRel(req, s) && req.term == n.term
    requires n.votedFor == NO_VOTE && UpToDate(n, req.lastIndex, req.lastTerm)
    ensures var v := Stable(n.term, req.candidate, n.commit, n.applied);
      Moves(s, s', id) && NodeRel(Do(n.(votedFor := req.candidate), SaveStable(v)), id, s')
    ensures (req.term, id) in s'.ballot && s'.ballot[(req.term, id)] == req.candidate
  {
    hide P.Inv, PhaseRel, CfgRel, Mirror;
    MemberHistory(s, id);
    LastIs(n, s.at[id].hist);
    s' := S.Cast(s, id, req.candidate);
    K.CastKeeps(s, id, req.candidate);
    var n' := Do(n.(votedFor := req.candidate), SaveStable(Stable(n.term, req.candidate, n.commit, n.applied)));
    VoteCounts(n, id, s, s', n');
    Restamped(n, id, s, s', n');
  }

  lemma VoteCounts(n: Node, id: int, s: P.State, s': P.State, n': Node)
    requires NodeRel(n, id, s) && P.Grows(s, s') && n' == n.(votedFor := n'.votedFor, disk := n'.disk)
    ensures RoleRel(n', id, s')
  {
    hide MemberRel, CfgRel, PhaseRel, Mirror;
  }

  lemma VoteIsBallot(s: P.State, id: int)
    requires P.Inv(s) && id in s.at && s.at[id].vote != NO_VOTE
    ensures (s.at[id].term, id) in s.ballot && s.ballot[(s.at[id].term, id)] == s.at[id].vote
  {
    hide P.Shape, P.Terms, P.Anchors, P.Roles, P.Acks, P.Kept, P.VotesSafe, P.Complete, P.Commits;
  }

  // -------------------------------------------------------------- winning

  lemma PeerIsNode(cfg: Config, id: int, s: P.State, p: int)
    requires CfgRel(cfg, id, s)
    ensures p in cfg.peers <==> p in s.nodes && p != id
  {
    assert p in (set x | x in cfg.peers) <==> p in s.nodes - {id};
  }

  /** A set of peers, with this node, is the configured majority if and only if it is a quorum. */
  lemma MajorityIsQuorum(cfg: Config, id: int, s: P.State, q: set<int>)
    requires CfgRel(cfg, id, s) && id in s.nodes && (forall p :: p in q ==> p in cfg.peers)
    ensures |q| + 1 >= Majority(cfg) <==> P.Quorum(s.nodes, q + {id})
  {
    PeerCount(cfg.peers);
    assert s.nodes == (set p | p in cfg.peers) + {id};
    forall p | p in q ensures p in s.nodes && p != id { PeerIsNode(cfg, id, s, p); }
    assert q + {id} <= s.nodes;
  }

  lemma {:induction false} PeerCount(peers: seq<int>)
    requires forall i, j :: 0 <= i < j < |peers| ==> peers[i] != peers[j]
    ensures |set p | p in peers| == |peers|
  {
    if peers != [] {
      PeerCount(peers[1..]);
      assert (set p | p in peers) == (set p | p in peers[1..]) + {peers[0]};
    }
  }

  lemma Winning(n: Node, id: int, s: P.State) returns (s': P.State)
    requires P.Inv(s) && NodeRel(n, id, s) && n.role == Candidate && |n.granted| + 1 >= Majority(n.cfg)
    ensures var o := BecomeLeader(n); Moves(s, s', id) && NodeRel(o.node, id, s') && |o.writes| == 1
    ensures n.term !in s.elected && n.term in s'.elected && s'.elected[n.term] == id
  {
    hide P.Inv, Uniform, PhaseRel, Mirror, SnapRel, CfgRel, RoleRel, P.Quorum, P.Anchored, P.Certified;
    MemberHistory(s, id);
    var h := s.at[id].hist;
    LastIs(n, h);
    VotersQuorum(n, id, s);
    var e := NoopFor(n);
    s' := S.Win(s, id, e);
    L.WinKeeps(s, id, e);
    ElectedKeys(s);
    AddedNode(n, id, s, s', e, BecomeLeader(n).node);
  }

  /** The votes a candidate counted are a quorum of ballots. */
  lemma VotersQuorum(n: Node, id: int, s: P.State)
    requires NodeRel(n, id, s) && id in s.nodes && n.role == Candidate && |n.granted| + 1 >= Majority(n.cfg)
    ensures P.Quorum(s.nodes, P.Voters(s, n.term, id))
  {
    hide MemberRel, Mirror, PhaseRel, SnapRel, CfgRel, P.Quorum;
    forall p | p in n.granted + {id} ensures p in P.Voters(s, n.term, id) { PeerIsNode(n.cfg, id, s, p); }
    MajorityIsQuorum(n.cfg, id, s, n.granted);
    P.WiderQuorum(s.nodes, n.granted + {id}, P.Voters(s, n.term, id));
  }

  lemma ElectedKeys(s: P.State)
    requires P.Inv(s)
    ensures s.elected.Keys == s.lead.Keys
  {
    hide P.Terms, P.Anchors, P.Roles, P.Ballots, P.Acks, P.Kept, P.VotesSafe, P.Complete, P.Commits;
  }

  /** Appending one entry to log and history alike keeps the relation. */
  lemma AddedNode(n: Node, id: int, s: P.State, s': P.State, e: LogEntry, n': Node)
    requires NodeRel(n, id, s) && P.Grows(s, s') && id in s'.at && Indexed(s.at[id].hist)
    requires s'.at[id] == s.at[id].(hist := s.at[id].hist + [e], role := Leader) && s'.done == s.done
    requires e.index == |s.at[id].hist| + 1 && P.Acked(s', n.term, id, e.index)
    requires n' == n.(log := n.log + [e], role := Leader, disk := Perform(n.disk, AppendEntry(e)),
                      leader := n'.leader, next := n'.next, match_ := n'.match_)
    requires forall p :: p in n'.match_ ==> n'.match_[p] == 0 || P.Acked(s', n.term, p, n'.match_[p])
    ensures NodeRel(n', id, s')
  {
    var h := s.at[id].hist;
    assert (h + [e])[n.meta.index..] == h[n.meta.index..] + [e];
    assert PhaseRel(n', s'.done) by { hide CfgRel, MemberRel, RoleRel, SnapRel; }
  }

  lemma VoteAnswered(n: Node, id: int, s: P.State, from: int, req: VoteReq, resp: VoteResp) returns (s': P.State)
    requires P.Inv(s) && NodeRel(n, id, s) && VoteReqRel(req, s) && VoteRespRel(from, req, resp, s) && req.candidate == id
    ensures var o := HandleVoteResp(n, from, req, resp);
      Moves(s, s', id) && NodeRel(o.node, id, s') && |o.writes| <= 1
  {
    hide P.Inv;
    if resp.term > n.term {
      s' := FollowNewTerm(n, id, s, resp.term, UNKNOWN_LEADER);
    } else if n.role == Candidate && n.term == req.term && resp.term == req.term && resp.granted
              && from in n.cfg.peers && from !in n.granted {
      var n1 := n.(granted := n.granted + {from});
      assert NodeRel(n1, id, s);
      if |n1.granted| + 1 >= Majority(n.cfg) { s' := Winning(n1, id, s); } else { s' := s; }
    } else {
      s' := s;
    }
  }

  lemma WonAlone(n: Node, id: int, s: P.State) returns (s': P.State)
    requires P.Inv(s) && NodeRel(n, id, s)
    ensures var o := WinAlone(n); Moves(s, s', id) && NodeRel(o.node, id, s') && |o.writes| <= 1
  {
    hide P.Inv;
    if Majority(n.cfg) == 1 && n.role == Candidate { s' := Winning(n, id, s); } else { s' := s; }
  }

  lemma Proposing(n: Node, id: int, s: P.State, c: Command) returns (s': P.State)
    requires P.Inv(s) && NodeRel(n, id, s) && |c.value| <= s.limit
    ensures var o := Propose(n, c); Moves(s, s', id) && NodeRel(o.node, id, s') && |o.writes| <= 1
  {
    hide P.Inv, PhaseRel, CfgRel, Mirror, RoleRel, SnapRel, P.Anchored, P.Certified, AllFit, LastIndexFor;
    var o := Propose(n, c);
    if o.reply.Accepted? {
      MemberHistory(s, id);
      LastIs(n, s.at[id].hist);
      var e := LogEntry(LastIndex(n) + 1, n.term, c.op, c.key, c.value);
      s' := S.Extend(s, id, e);
      L.ExtendKeeps(s, id, e);
      AckedStays(n, id, s, s');
      AddedNode(n, id, s, s', e, o.node);
    } else {
      s' := s;
    }
  }

  lemma AckedStays(n: Node, id: int, s: P.State, s': P.State)
    requires NodeRel(n, id, s) && P.Grows(s, s') && n.role.Leader?
    ensures forall p :: p in n.match_ ==> n.match_[p] == 0 || P.Acked(s', n.term, p, n.match_[p])
  {
    hide CfgRel, MemberRel, Mirror, PhaseRel;
  }
}
