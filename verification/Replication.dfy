/** AppendEntries, from building a request to counting its answers, refines
    the protocol. */
module Replication {
  import opened Entries
  import opened KvStore
  import opened Disk
  import opened Node
  import opened Relation
  import opened Elections
  import P = Protocol
  import S = ProtocolSteps
  import K = ProtocolKeeps
  import L = ProtocolLogs

  /** A request carries a slice of its term's leader log that reaches its
      commit index. */
  ghost predicate AppendReqRel(r: AppendReq, s: P.State) {
    && r.term in s.lead
    && var l := s.lead[r.term];
    && r.prevIndex + |r.entries| <= |l|
    && r.entries == l[r.prevIndex..r.prevIndex + |r.entries|]
    && r.prevTerm == TermIn(l, r.prevIndex)
    && r.commit <= r.prevIndex + |r.entries|
    && P.Certified(s, l[..r.commit], r.term)
  }

  ghost predicate AppendRespRel(from: int, req: AppendReq, resp: AppendResp, s: P.State) {
    resp.success && resp.term == req.term ==> P.Acked(s, req.term, from, req.prevIndex + |req.entries|)
  }

  lemma AppendReqGrows(r: AppendReq, s: P.State, s': P.State)
    requires AppendReqRel(r, s) && P.Grows(s, s')
    ensures AppendReqRel(r, s')
  {
    var l, l' := s.lead[r.term], s'.lead[r.term];
    assert l <= l';
    assert l[..r.commit] == l'[..r.commit];
    S.CertifiedGrows(s, s', l[..r.commit], r.term, r.term);
  }

  /** The leader always sends its whole suffix, so its commit index never
      passes the last entry it sends. */
  lemma BuiltAppend(n: Node, id: int, s: P.State, peer: int)
    requires P.Inv(s) && NodeRel(n, id, s)
    ensures var r := BuildAppend(n, peer);
      r.Some? ==> AppendReqRel(r.value, s) && r.value.prevIndex + |r.value.entries| == LastIndex(n)
  {
    hide P.Inv, PhaseRel, CfgRel, Mirror, RoleRel, TermAt, EntriesFrom, LastIndex, P.Certified, P.Below, P.Anchored, Indexed, AllFit;
    if BuildAppend(n, peer).Some? {
      MemberHistory(s, id);
      LeaderLog(s, id);
      var h := s.at[id].hist;
      LastIs(n, h);
      TermIs(n, h, n.next[peer] - 1);
      EntriesAre(n, h, n.next[peer]);
    }
  }

  lemma LeaderLog(s: P.State, id: int)
    requires P.Inv(s) && id in s.at && s.at[id].role.Leader?
    ensures var t := s.at[id].term;
      t in s.lead && s.lead[t] == s.at[id].hist && t in s.elected && s.elected[t] == id
  {
    hide P.Shape, P.Terms, P.Anchors, P.Ballots, P.Acks, P.Kept, P.VotesSafe, P.Complete, P.Commits;
  }

  lemma LeadLog(s: P.State, t: nat)
    requires P.Inv(s) && t in s.lead
    ensures Indexed(s.lead[t]) && AllFit(s.lead[t], s.limit) && P.Anchored(s, s.lead[t]) && P.Below(s.lead[t], t)
    ensures P.Known(s) && P.Complete(s)
  {
    hide P.Roles, P.Ballots, P.Acks, P.Kept, P.VotesSafe, P.Complete, P.Commits;
  }

  lemma LeadTerms(s: P.State)
    requires P.Inv(s)
    ensures forall t :: t in s.lead ==> P.Below(s.lead[t], t)
  {
    hide P.Shape, P.Anchors, P.Roles, P.Ballots, P.Acks, P.Kept, P.VotesSafe, P.Complete, P.Commits, P.Below;
  }

  // ---------------------------------------------------- the replication plan

  /** h may follow l as far as they agree: entries with equal terms are equal,
      and everything committed in h is in l. */
  predicate Reconcilable(h: Log, commit: nat, l: Log) {
    && Indexed(h) && Indexed(l)
    && (forall q :: 0 <= q < |h| && q < |l| && h[q].term == l[q].term ==> h[q] == l[q])
    && commit <= |h| && h[..commit] <= l
  }

  lemma PlanStep(n: Node, h: Log, l: Log, prev: nat, entries: Log, i: nat, limit: nat)
    requires SuffixOf(n.log, n.meta, h) && Reconcilable(h, n.commit, l) && AllFit(l, limit)
    requires i < |entries| && prev + |entries| <= |l| && entries == l[prev..prev + |entries|]
    requires n.meta.index <= prev && prev + i <= |h|
    ensures PlanFrom(n, prev, entries, i) ==
      if prev + i == |h| then Plan(0, entries[i..])
      else if h[prev + i] == l[prev + i] then PlanFrom(n, prev, entries, i + 1)
      else Plan(prev + i + 1, entries[i..])
    ensures prev + i < |h| && h[prev + i] != l[prev + i] ==> n.commit <= prev + i
  {
    hide EntryAt, LastIndex, SuffixOf, ValidEntry;
    var e := l[prev + i];
    assert entries[i] == e && Fits(e, limit) && e.index == prev + i + 1;
    LastIs(n, h);
    EntryIs(n, h, prev + i + 1);
    if prev + i < n.commit {
      assert h[..n.commit][prev + i] == l[..n.commit][prev + i];
    }
  }

  /** No refusal branch fires on a real leader's request: the plan appends or
      cuts exactly where the two logs part. */
  lemma {:induction false} PlanShape(n: Node, h: Log, l: Log, prev: nat, entries: Log, i: nat, limit: nat) returns (j: nat)
    requires SuffixOf(n.log, n.meta, h) && Reconcilable(h, n.commit, l) && AllFit(l, limit)
    requires i <= |entries| && prev + |entries| <= |l| && entries == l[prev..prev + |entries|]
    requires n.meta.index <= prev && prev + i <= |h| && h[..prev + i] == l[..prev + i]
    ensures prev + i <= j <= prev + |entries| && j <= |h| && h[..j] == l[..j]
    ensures j == prev + |entries| ==> PlanFrom(n, prev, entries, i) == Plan(0, [])
    ensures j < prev + |entries| && j == |h| ==> PlanFrom(n, prev, entries, i) == Plan(0, entries[j - prev..])
    ensures j < prev + |entries| && j < |h| ==>
      h[j] != l[j] && n.commit <= j && PlanFrom(n, prev, entries, i) == Plan(j + 1, entries[j - prev..])
    decreases |entries| - i
  {
    hide SuffixOf, Reconcilable, AllFit;
    j := prev + i;
    if i < |entries| {
      hide PlanFrom;
      PlanStep(n, h, l, prev, entries, i, limit);
      if prev + i < |h| && h[prev + i] == l[prev + i] {
        assert h[..prev + i + 1] == h[..prev + i] + [h[prev + i]] == l[..prev + i + 1];
        j := PlanShape(n, h, l, prev, entries, i + 1, limit);
      }
    }
  }

  lemma MemberReconcilable(s: P.State, id: int)
    requires P.Inv(s) && id in s.at && s.at[id].term in s.lead
    ensures Reconcilable(s.at[id].hist, s.at[id].commit, s.lead[s.at[id].term])
  {
    hide P.Inv, P.Certified, P.Complete, P.Anchored;
    MemberHistory(s, id);
    var m := s.at[id];
    LeadLog(s, m.term);
    S.CertifiedInLead(s, m.hist[..m.commit], m.term, m.term);
    forall q | 0 <= q < |m.hist| && q < |s.lead[m.term]| && m.hist[q].term == s.lead[m.term][q].term
      ensures m.hist[q] == s.lead[m.term][q]
    {
      S.Matching(s, m.hist, s.lead[m.term], q + 1);
      assert m.hist[..q + 1][q] == s.lead[m.term][..q + 1][q];
    }
  }

  /** An accepted prefix check means equal prefixes. */
  lemma PrefixAgrees(n: Node, id: int, s: P.State, r: AppendReq)
    requires P.Inv(s) && NodeRel(n, id, s) && AppendReqRel(r, s) && MatchesPrefix(n, r.prevIndex, r.prevTerm)
    ensures n.meta.index <= r.prevIndex <= |s.at[id].hist|
    ensures s.at[id].hist[..r.prevIndex] == s.lead[r.term][..r.prevIndex]
  {
    hide P.Inv, PhaseRel, CfgRel, Mirror, RoleRel, P.Anchored, P.Certified;
    MemberHistory(s, id);
    TermIs(n, s.at[id].hist, r.prevIndex);
    LeadLog(s, r.term);
    if r.prevIndex > 0 {
      S.Matching(s, s.at[id].hist, s.lead[r.term], r.prevIndex);
    }
  }

  // --------------------------------------------------- carrying out the plan

  function Relogged(n: Node, log: Log): Node {
    n.(log := log, disk := n.disk.(log := log))
  }

  lemma Adopted(n: Node, id: int, s: P.State, j: nat, k: nat) returns (s': P.State)
    requires P.Inv(s) && NodeRel(n, id, s) && n.role == Follower && S.CanAdopt(s, id, j, k) && n.meta.index <= j
    ensures Moves(s, s', id) && s' == S.Adopt(s, id, j, k)
    ensures NodeRel(Relogged(n, s.lead[n.term][..k][n.meta.index..]), id, s')
  {
    hide P.Inv;
    L.AdoptKeeps(s, id, j, k);
    s' := S.Adopt(s, id, j, k);
    var l, h := s.lead[n.term], s.at[id].hist;
    TermInPrefix(l[..j], l[..k], n.meta.index);
    TermInPrefix(h[..j], h, n.meta.index);
    var n' := Relogged(n, l[..k][n.meta.index..]);
    assert PhaseRel(n', s'.done) by { hide CfgRel, MemberRel, RoleRel, SnapRel, Fold; }
  }

  lemma Committed(n: Node, id: int, s: P.State, c: nat) returns (s': P.State)
    requires P.Inv(s) && NodeRel(n, id, s) && S.CanCommit(s, id, c) && c > n.commit
    ensures Moves(s, s', id) && s'.at[id].commit == c && |s'.done| >= c && s'.at[id].hist == s.at[id].hist
    ensures var o := CommitUpTo(n, c); NodeRel(o.node, id, s') && |o.writes| == 1 && o.reply
  {
    hide P.Inv, P.Certified, SuffixOf, Fold;
    K.CommitKeeps(s, id, c);
    s' := S.Commit(s, id, c);
    var n' := CommitUpTo(n, c).node;
    assert PhaseRel(n', s'.done) by {
      hide CfgRel, MemberRel, RoleRel, SnapRel, Mirror;
      PhaseRelGrows(n, s.done, s'.done);
    }
    if n.disk.snap.Some? { SnapRelGrows(n.disk.snap.value, s.done, s'.done); }
    assert RoleRel(n', id, s') by { hide CfgRel, MemberRel, PhaseRel, Mirror, SnapRel; }
    hide RoleRel, PhaseRel, SnapRel;
  }

  lemma Acknowledged(n: Node, id: int, s: P.State, k: nat) returns (s': P.State)
    requires P.Inv(s) && NodeRel(n, id, s) && S.CanAck(s, id, k)
    ensures Moves(s, s', id) && NodeRel(n, id, s') && P.Acked(s', n.term, id, k) && s'.at == s.at
    ensures s'.lead == s.lead && s'.done == s.done
  {
    hide P.Inv;
    K.AckKeeps(s, id, k);
    s' := S.Ack(s, id, k);
    NodeRelGrows(n, id, s, s');
  }

  /** Cutting at the point where the logs part and appending a entries of the
      leader's leaves exactly that much of the leader's log. */
  lemma CarriedOut(n: Node, h: Log, l: Log, j: nat, a: nat)
    requires SuffixOf(n.log, n.meta, h) && Indexed(h) && Indexed(l) && n.disk.log == n.log
    requires n.meta.index <= j <= |h| && j + a <= |l| && h[..j] == l[..j] && Loadable(l[j..j + a])
    ensures var c := CutTo(n, if j == |h| then 0 else j + 1);
      && c.reply && c.writes == (if j == |h| then [] else [CutLog(j + 1)])
      && c.node.disk == PerformAll(n.disk, c.writes)
      && AddAll(c.node, l[j..j + a]).node == Relogged(n, l[..j + a][n.meta.index..])
  {
    hide Loadable, Indexed;
    CutOut(n, h, l, j);
    var c := CutTo(n, if j == |h| then 0 else j + 1);
    hide CutTo;
    PerformAppends(c.node.disk, l[j..j + a]);
    assert l[..j][n.meta.index..] + l[j..j + a] == l[..j + a][n.meta.index..];
  }

  lemma CutOut(n: Node, h: Log, l: Log, j: nat)
    requires SuffixOf(n.log, n.meta, h) && Indexed(h) && n.disk.log == n.log
    requires n.meta.index <= j <= |h| && j <= |l| && h[..j] == l[..j]
    ensures var c := CutTo(n, if j == |h| then 0 else j + 1);
      && c.reply && c.writes == (if j == |h| then [] else [CutLog(j + 1)])
      && c.node.disk == PerformAll(n.disk, c.writes) && c.node == Relogged(n, l[..j][n.meta.index..])
  {
    hide Cut;
    if j < |h| {
      EntryIs(n, h, j + 1);
      CutSuffix(h, n.meta.index, j + 1);
      PerformOne(n.disk, CutLog(j + 1));
      assert n.log[..j - n.meta.index] == h[..j][n.meta.index..];
    } else {
      assert h[..j] == h;
    }
  }

  lemma SliceLoadable(l: Log, i: nat, j: nat, limit: nat)
    requires Indexed(l) && AllFit(l, limit) && i <= j <= |l|
    ensures Loadable(l[i..j])
  {
    SuffixLoadable(l[..j], i, limit);
  }

  lemma LeadSlice(s: P.State, t: nat, i: nat, j: nat)
    requires P.Inv(s) && t in s.lead && i <= j <= |s.lead[t]|
    ensures Loadable(s.lead[t][i..j])
  {
    hide P.Inv, Loadable, P.Anchored;
    LeadLog(s, t);
    SliceLoadable(s.lead[t], i, j, s.limit);
  }

  /** What a follower that passed the prefix check does with a request. */
  lemma AppendShape(n: Node, id: int, s: P.State, r: AppendReq) returns (j: nat)
    requires P.Inv(s) && NodeRel(n, id, s) && n.role == Follower && n.leader == r.leader
    requires AppendReqRel(r, s) && r.term == n.term && MatchesPrefix(n, r.prevIndex, r.prevTerm)
    ensures id in s.at && n.term == s.at[id].term && n.term in s.lead && n.meta.index <= j <= r.prevIndex + |r.entries| <= |s.lead[n.term]|
    ensures var h, l := s.at[id].hist, s.lead[n.term];
      && j <= |h| && h[..j] == l[..j]
      && (j < r.prevIndex + |r.entries| ==> S.CanAdopt(s, id, j, r.prevIndex + |r.entries|) && S.CanAdopt(s, id, j, j))
    ensures PlanFrom(n, r.prevIndex, r.entries, 0) ==
      if j == r.prevIndex + |r.entries| then Plan(0, [])
      else Plan(if j == |s.at[id].hist| then 0 else j + 1, s.lead[n.term][j..r.prevIndex + |r.entries|])
  {
    hide P.Inv, PhaseRel, CfgRel, Mirror, RoleRel, P.Anchored, P.Certified, PlanFrom, MatchesPrefix;
    PrefixAgrees(n, id, s, r);
    MemberReconcilable(s, id);
    LeadLog(s, n.term);
    var h, l := s.at[id].hist, s.lead[n.term];
    j := PlanShape(n, h, l, r.prevIndex, r.entries, 0, s.limit);
    assert r.entries[j - r.prevIndex..] == l[j..r.prevIndex + |r.entries|];
  }

  /** The log part of handling a request: a entries of the batch appended. */
  lemma Appending(n: Node, id: int, s: P.State, r: AppendReq, j: nat, a: nat) returns (s': P.State)
    requires P.Inv(s) && NodeRel(n, id, s) && n.role == Follower && AppendReqRel(r, s) && r.term == n.term
    requires n.meta.index <= j && j + a <= r.prevIndex + |r.entries| && j <= |s.at[id].hist|
    requires s.at[id].hist[..j] == s.lead[n.term][..j] && S.CanAdopt(s, id, j, j + a)
    ensures Moves(s, s', id) && s'.at[id].hist == s.lead[n.term][..j + a] && s'.lead == s.lead
    ensures s'.at[id].term == n.term && s'.at[id].commit == n.commit
    ensures var c := CutTo(n, if j == |s.at[id].hist| then 0 else j + 1);
      NodeRel(AddAll(c.node, s.lead[n.term][j..j + a]).node, id, s')
  {
    hide P.Inv, PhaseRel, CfgRel, RoleRel, P.Anchored, P.Certified, CutTo, AddAll;
    MemberHistory(s, id);
    LeadLog(s, n.term);
    s' := Adopted(n, id, s, j, j + a);
    LeadSlice(s, n.term, j, j + a);
    CarriedOut(n, s.at[id].hist, s.lead[n.term], j, a);
  }

  /** Acknowledging, then following the leader's commit index: it lies within
      the matched prefix, so no unmatched suffix is ever committed. */
  lemma Finishing(n: Node, id: int, s: P.State, r: AppendReq) returns (s': P.State)
    requires P.Inv(s) && NodeRel(n, id, s) && AppendReqRel(r, s) && r.term == n.term
    requires s.lead[n.term][..r.prevIndex + |r.entries|] <= s.at[id].hist
    ensures var o := CommitUpTo(n, Min(r.commit, LastIndex(n)));
      Moves(s, s', id) && NodeRel(o.node, id, s') && o.reply && |o.writes| <= 1
    ensures P.Acked(s', r.term, id, r.prevIndex + |r.entries|) && s'.at[id].hist == s.at[id].hist
  {
    hide P.Inv, PhaseRel, CfgRel, RoleRel, Mirror, P.Certified, P.Anchored;
    MemberHistory(s, id);
    var l, h, e := s.lead[n.term], s.at[id].hist, r.prevIndex + |r.entries|;
    LastIs(n, h);
    s' := Acknowledged(n, id, s, e);
    if r.commit > n.commit {
      assert h[..r.commit] == l[..e][..r.commit] == l[..r.commit];
      S.CertifiedGrows(s, s', l[..r.commit], n.term, n.term);
      var s1 := s';
      s' := Committed(n, id, s1, r.commit);
      MovesTwice(s, s1, s', id);
    }
  }

  lemma AppendHandled(n: Node, id: int, s: P.State, r: AppendReq) returns (s': P.State)
    requires P.Inv(s) && NodeRel(n, id, s) && AppendReqRel(r, s) && r.term == n.term
    ensures var o := AppendInTerm(n, r);
      Moves(s, s', id) && NodeRel(o.node, id, s') && AppendRespRel(id, r, o.reply, s')
  {
    hide P.Inv, NodeRel, AppendReqRel, P.Certified, PlanFrom, MatchesPrefix, CutTo, AddAll, CommitUpTo;
    var s0 := FollowSameTerm(n, id, s, r.leader);
    var n0 := n.(role := Follower, leader := r.leader);
    AppendReqGrows(r, s, s0);
    if MatchesPrefix(n0, r.prevIndex, r.prevTerm) {
      s' := AppendAccepted(n0, id, s0, r);
      MovesTwice(s, s0, s', id);
    } else {
      s' := s0;
    }
  }

  /** The follower's node and writes when the plan is (cut, add). */
  lemma AppendUnfolds(n: Node, r: AppendReq, cut: nat, add: Log)
    requires n.role == Follower && n.leader == r.leader && MatchesPrefix(n, r.prevIndex, r.prevTerm)
    requires PlanFrom(n, r.prevIndex, r.entries, 0) == Plan(cut, add) && CutTo(n, cut).reply && Loadable(add)
    ensures var a := CutTo(n, cut); var b := AddAll(a.node, add);
      var c := CommitUpTo(b.node, Min(r.commit, LastIndex(b.node)));
      AppendInTerm(n, r) == Outcome(c.node, a.writes + Appends(add) + c.writes, AppendResp(n.term, c.reply))
  {
    hide PlanFrom, MatchesPrefix, CutTo, CommitUpTo, Appends, PerformAll, Loadable;
    assert n.(role := Follower, leader := r.leader) == n;
  }

  lemma ZeroPlan(n: Node)
    ensures CutTo(n, 0) == Outcome(n, [], true) && AddAll(n, []).node == n && Appends([]) == []
  {
    assert n.log + [] == n.log;
  }

  lemma AppendAccepted(n: Node, id: int, s: P.State, r: AppendReq) returns (s': P.State)
    requires P.Inv(s) && NodeRel(n, id, s) && AppendReqRel(r, s) && r.term == n.term
    requires n.role == Follower && n.leader == r.leader && MatchesPrefix(n, r.prevIndex, r.prevTerm)
    ensures var o := AppendInTerm(n, r);
      Moves(s, s', id) && NodeRel(o.node, id, s') && o.reply == AppendResp(r.term, true)
    ensures P.Acked(s', r.term, id, r.prevIndex + |r.entries|)
    ensures r.term in s.lead && r.prevIndex + |r.entries| <= |s.lead[r.term]| && id in s.at
    ensures var sent, h := s.lead[r.term][..r.prevIndex + |r.entries|], s.at[id].hist;
      s'.at[id].hist == if sent <= h then h else sent
  {
    hide P.Inv, NodeRel, P.Certified, PlanFrom, MatchesPrefix, CommitUpTo, AppendReqRel, AppendInTerm, CutTo, AddAll, S.CanAdopt;
    var j := AppendShape(n, id, s, r);
    var l, e := s.lead[n.term], r.prevIndex + |r.entries|;
    if j < e { Parts(s, id, j, e); }
    if j == e {
      ZeroPlan(n);
      AppendUnfolds(n, r, 0, []);
      assert l[..e] <= s.at[id].hist;
      s' := Finishing(n, id, s, r);
    } else {
      var cut := if j == |s.at[id].hist| then 0 else j + 1;
      CarriedOut'(n, id, s, j);
      LeadSlice(s, n.term, j, e);
      AppendUnfolds(n, r, cut, l[j..e]);
      var s1 := Appending(n, id, s, r, j, e - j);
      AppendReqGrows(r, s, s1);
      Steady(n, j, s.at[id].hist, l[j..e]);
      s' := Finishing(AddAll(CutTo(n, cut).node, l[j..e]).node, id, s1, r);
      MovesTwice(s, s1, s', id);
    }
  }

  /** Where two logs part, neither is a prefix of the other's rest. */
  lemma Parts(s: P.State, id: int, j: nat, e: nat)
    requires S.CanAdopt(s, id, j, e) && j < e
    ensures !(s.lead[s.at[id].term][..e] <= s.at[id].hist)
  {
    var l, h := s.lead[s.at[id].term], s.at[id].hist;
    assert l[..e][j] == l[j];
  }

  lemma CarriedOut'(n: Node, id: int, s: P.State, j: nat)
    requires P.Inv(s) && NodeRel(n, id, s) && n.term in s.lead
    requires n.meta.index <= j <= |s.at[id].hist| && j <= |s.lead[n.term]| && s.at[id].hist[..j] == s.lead[n.term][..j]
    ensures CutTo(n, if j == |s.at[id].hist| then 0 else j + 1).reply
    ensures CutTo(n, if j == |s.at[id].hist| then 0 else j + 1).writes == if j == |s.at[id].hist| then [] else [CutLog(j + 1)]
    ensures CutTo(n, if j == |s.at[id].hist| then 0 else j + 1).node.disk ==
      PerformAll(n.disk, if j == |s.at[id].hist| then [] else [CutLog(j + 1)])
  {
    hide P.Inv, PhaseRel, CfgRel, RoleRel, P.Certified, P.Anchored;
    MemberHistory(s, id);
    LeadLog(s, n.term);
    CutOut(n, s.at[id].hist, s.lead[n.term], j);
  }

  lemma Steady(n: Node, j: nat, h: Log, es: Log)
    ensures AddAll(CutTo(n, if j == |h| then 0 else j + 1).node, es).node.term == n.term
  {
  }

  // -------------------------------------------- crashing inside the handler

  /** The handler's writes, in order, are what it does to the disk. */
  lemma AppendDisk(n: Node, r: AppendReq)
    ensures AppendInTerm(n, r).node.disk == PerformAll(n.disk, AppendInTerm(n, r).writes)
  {
    hide PlanFrom, MatchesPrefix, Appends, Perform;
    var n0 := n.(role := Follower, leader := r.leader);
    if MatchesPrefix(n0, r.prevIndex, r.prevTerm) && PlanFrom(n0, r.prevIndex, r.entries, 0).Plan? {
      var plan := PlanFrom(n0, r.prevIndex, r.entries, 0);
      var a := CutTo(n0, plan.cut);
      CutDisk(n0, plan.cut);
      if a.reply {
        var b := AddAll(a.node, plan.add);
        var c := CommitUpTo(b.node, Min(r.commit, LastIndex(b.node)));
        CommitDisk(b.node, Min(r.commit, LastIndex(b.node)));
        PerformConcat(n.disk, a.writes, b.writes);
        PerformConcat(n.disk, a.writes + b.writes, c.writes);
      }
    }
  }

  lemma CutDisk(n: Node, cut: nat)
    ensures CutTo(n, cut).node.disk == PerformAll(n.disk, CutTo(n, cut).writes)
  {
    hide Offset, Perform;
    if cut != 0 { PerformOne(n.disk, CutLog(cut)); }
  }

  lemma CommitDisk(n: Node, c: nat)
    ensures CommitUpTo(n, c).node.disk == PerformAll(n.disk, CommitUpTo(n, c).writes)
    ensures |CommitUpTo(n, c).writes| <= 1
  {
    PerformOne(n.disk, SaveStable(Stable(n.term, n.votedFor, c, n.applied)));
  }

  /** After a crash between any two writes the disk still stands for a member. */
  lemma AppendCrashed(n: Node, id: int, s: P.State, r: AppendReq, k: nat) returns (s': P.State)
    requires P.Inv(s) && NodeRel(n, id, s) && AppendReqRel(r, s) && r.term == n.term
    requires k <= |AppendInTerm(n, r).writes|
    ensures Moves(s, s', id) && DiskRel(PerformAll(n.disk, AppendInTerm(n, r).writes[..k]), s'.at[id], s'.done)
  {
    hide P.Inv, NodeRel, DiskRel, AppendReqRel, P.Certified, AppendInTerm, PerformAll;
    var ws := AppendInTerm(n, r).writes;
    if k == |ws| {
      s' := AppendHandled(n, id, s, r);
      AppendDisk(n, r);
      assert ws[..k] == ws;
      MirrorDisk(AppendInTerm(n, r).node, id, s');
    } else if k == 0 {
      s' := s;
      Nothing(n.disk, ws);
      MirrorDisk(n, id, s);
    } else {
      s' := AppendTorn(n, id, s, r, k);
    }
  }

  lemma AppendTorn(n: Node, id: int, s: P.State, r: AppendReq, k: nat) returns (s': P.State)
    requires P.Inv(s) && NodeRel(n, id, s) && AppendReqRel(r, s) && r.term == n.term
    requires 0 < k < |AppendInTerm(n, r).writes|
    ensures Moves(s, s', id) && DiskRel(PerformAll(n.disk, AppendInTerm(n, r).writes[..k]), s'.at[id], s'.done)
  {
    hide P.Inv, NodeRel, DiskRel, AppendReqRel, P.Certified, AppendInTerm;
    var s0 := FollowSameTerm(n, id, s, r.leader);
    var n0 := n.(role := Follower, leader := r.leader);
    AppendReqGrows(r, s, s0);
    SameAppend(n, r);
    s' := AppendTornFrom(n0, id, s0, r, k);
    MovesTwice(s, s0, s', id);
  }

  lemma SameAppend(n: Node, r: AppendReq)
    ensures AppendInTerm(n.(role := Follower, leader := r.leader), r) == AppendInTerm(n, r)
    ensures AppendInTerm(n, r).writes != [] ==> MatchesPrefix(n.(role := Follower, leader := r.leader), r.prevIndex, r.prevTerm)
  {
    hide PlanFrom, MatchesPrefix, CutTo, CommitUpTo;
  }

  lemma AppendTornFrom(n: Node, id: int, s: P.State, r: AppendReq, k: nat) returns (s': P.State)
    requires P.Inv(s) && NodeRel(n, id, s) && AppendReqRel(r, s) && r.term == n.term
    requires n.role == Follower && n.leader == r.leader && MatchesPrefix(n, r.prevIndex, r.prevTerm)
    requires 0 < k < |AppendInTerm(n, r).writes|
    ensures Moves(s, s', id) && DiskRel(PerformAll(n.disk, AppendInTerm(n, r).writes[..k]), s'.at[id], s'.done)
  {
    hide P.Inv, NodeRel, DiskRel, P.Certified, PlanFrom, MatchesPrefix, CommitUpTo, AppendReqRel, AppendInTerm, CutTo, PerformAll, S.CanAdopt;
    var j := AppendShape(n, id, s, r);
    var l, e, h := s.lead[n.term], r.prevIndex + |r.entries|, s.at[id].hist;
    if j == e {
      ZeroPlan(n);
      AppendUnfolds(n, r, 0, []);
      CommitDisk(n, Min(r.commit, LastIndex(n)));
      assert false;
    } else {
      var cut := if j == |h| then 0 else j + 1;
      CarriedOut'(n, id, s, j);
      LeadSlice(s, n.term, j, e);
      AppendUnfolds(n, r, cut, l[j..e]);
      var cw := if j == |h| then [] else [CutLog(j + 1)];
      var b := AddAll(CutTo(n, cut).node, l[j..e]).node;
      var c := CommitUpTo(b, Min(r.commit, LastIndex(b)));
      CommitDisk(b, Min(r.commit, LastIndex(b)));
      TornWrites(n.disk, cw, l, j, e, c.writes, k);
      var a := k - |cw|;
      CanAdoptLess(s, id, j, e, j + a);
      LeadSlice(s, n.term, j, j + a);
      s' := Appending(n, id, s, r, j, a);
      MirrorDisk(AddAll(CutTo(n, cut).node, l[j..j + a]).node, id, s');
    }
  }

  lemma CanAdoptLess(s: P.State, id: int, j: nat, k: nat, i: nat)
    requires S.CanAdopt(s, id, j, k) && j <= i <= k
    ensures S.CanAdopt(s, id, j, i)
  {
  }

  lemma TornWrites(d: Disk, cw: seq<Write>, l: Log, j: nat, e: nat, tail: seq<Write>, k: nat)
    requires |cw| <= 1 && |tail| <= 1 && j <= e <= |l| && 0 < k < |cw + Appends(l[j..e]) + tail|
    ensures 0 <= k - |cw| <= e - j
    ensures PerformAll(d, (cw + Appends(l[j..e]) + tail)[..k]) == PerformAll(PerformAll(d, cw), Appends(l[j..j + k - |cw|]))
  {
    hide PerformAll;
    var a := k - |cw|;
    AppendsPrefix(l[j..e], a);
    assert l[j..e][..a] == l[j..j + a];
    assert (cw + Appends(l[j..e]) + tail)[..k] == cw + Appends(l[j..e])[..a];
    PerformConcat(d, cw, Appends(l[j..j + a]));
  }

  // ------------------------------------------------- counting the answers

  lemma {:induction false} MatchedSet(peers: seq<int>, m: map<int, nat>, index: nat)
    requires forall i, j :: 0 <= i < j < |peers| ==> peers[i] != peers[j]
    ensures |set p | p in peers && p in m && m[p] >= index| == Matched(peers, m, index)
  {
    var all := set p | p in peers && p in m && m[p] >= index;
    if peers != [] {
      MatchedSet(peers[1..], m, index);
      var rest := set p | p in peers[1..] && p in m && m[p] >= index;
      assert all == rest + if peers[0] in m && m[peers[0]] >= index then {peers[0]} else {};
    } else {
      assert all == {};
    }
  }

  /** Commitment by counting: a current-term entry on a majority is chosen. */
  lemma MajorityChooses(n: Node, id: int, s: P.State, c: nat)
    requires P.Inv(s) && NodeRel(n, id, s) && n.role == Leader && 0 < c <= LastIndex(n) && n.meta.index < c
    requires Committable(n, c)
    ensures P.Chosen(s, n.term, c)
  {
    hide P.Inv, PhaseRel, Mirror, P.Certified, P.Anchored;
    MemberHistory(s, id);
    LeaderLog(s, id);
    LastIs(n, s.at[id].hist);
    TermIs(n, s.at[id].hist, c);
    MatchedSet(n.cfg.peers, n.match_, c);
    var q := set p | p in n.cfg.peers && p in n.match_ && n.match_[p] >= c;
    MajorityIsQuorum(n.cfg, id, s, q);
    AckersHold(n, id, s, c, q);
    P.WiderQuorum(s.nodes, q + {id}, P.Ackers(s, n.term, c));
  }

  lemma AckersHold(n: Node, id: int, s: P.State, c: nat, q: set<int>)
    requires RoleRel(n, id, s) && n.role == Leader && CfgRel(n.cfg, id, s) && id in s.nodes && 0 < c <= LastIndex(n)
    requires q == set p | p in n.cfg.peers && p in n.match_ && n.match_[p] >= c
    ensures q + {id} <= P.Ackers(s, n.term, c)
  {
    forall p | p in q + {id} ensures p in P.Ackers(s, n.term, c) {
      PeerIsNode(n.cfg, id, s, p);
      assert P.Acked(s, n.term, p, c);
    }
  }

  lemma Advancing(n: Node, id: int, s: P.State) returns (s': P.State)
    requires P.Inv(s) && NodeRel(n, id, s) && n.role == Leader
    ensures var o := AdvanceCommit(n); Moves(s, s', id) && NodeRel(o.node, id, s') && |o.writes| <= 1
  {
    hide P.Inv, PhaseRel, Mirror, P.Certified, P.Anchored, CfgRel, RoleRel, Committable, P.Chosen;
    var c := CommitPoint(n, LastIndex(n));
    s' := s;
    if c != n.commit {
      MemberHistory(s, id);
      LeaderLog(s, id);
      LastIs(n, s.at[id].hist);
      MajorityChooses(n, id, s, c);
      ChosenCertified(s, s.at[id].hist[..c], n.term, c);
      s' := Committed(n, id, s, c);
    }
  }

  lemma ChosenCertified(s: P.State, log: Log, t: nat, k: nat)
    requires P.Chosen(s, t, k) && |log| <= k && log <= s.lead[t]
    ensures P.Certified(s, log, t)
  {
  }

  lemma AppendAnswered(n: Node, id: int, s: P.State, peer: int, r: AppendReq, resp: AppendResp) returns (s': P.State)
    requires P.Inv(s) && NodeRel(n, id, s) && AppendRespRel(peer, r, resp, s)
    ensures var o := HandleAppendResp(n, peer, r, resp);
      Moves(s, s', id) && NodeRel(o.node, id, s') && |o.writes| <= 1
  {
    hide P.Inv, AdvanceCommit, NodeRel;
    if resp.term > n.term {
      s' := FollowNewTerm(n, id, s, resp.term, UNKNOWN_LEADER);
    } else if n.role != Leader || r.term != n.term || resp.term != n.term || !resp.success {
      s' := s;
      CursorFree(n, id, s, HandleAppendResp(n, peer, r, resp).node);
    } else {
      var m := Max(At(n.match_, peer), r.prevIndex + |r.entries|);
      var n1 := n.(match_ := n.match_[peer := m], next := n.next[peer := Max(At(n.next, peer), m + 1)]);
      CountedRel(n, id, s, peer, r, n1);
      s' := Advancing(n1, id, s);
    }
  }

  /** Cursors carry no protocol meaning. */
  lemma CursorFree(n: Node, id: int, s: P.State, n1: Node)
    requires NodeRel(n, id, s) && n1 == n.(next := n1.next)
    ensures NodeRel(n1, id, s)
  {
    assert RoleRel(n1, id, s) by { hide CfgRel, MemberRel, Mirror, PhaseRel, SnapRel; }
    assert PhaseRel(n1, s.done) by { hide CfgRel, MemberRel, Mirror, RoleRel, SnapRel, Fold; }
    hide RoleRel, PhaseRel, CfgRel, SnapRel;
  }

  lemma CountedRel(n: Node, id: int, s: P.State, peer: int, r: AppendReq, n1: Node)
    requires NodeRel(n, id, s) && n.role == Leader && P.Acked(s, n.term, peer, r.prevIndex + |r.entries|)
    requires n1 == n.(match_ := n.match_[peer := Max(At(n.match_, peer), r.prevIndex + |r.entries|)], next := n1.next)
    ensures NodeRel(n1, id, s)
  {
    assert RoleRel(n1, id, s) by { hide CfgRel, MemberRel, Mirror, PhaseRel, SnapRel; }
    assert PhaseRel(n1, s.done) by { hide CfgRel, MemberRel, Mirror, RoleRel, SnapRel, Fold; }
    hide RoleRel, PhaseRel, CfgRel, SnapRel;
  }
}
