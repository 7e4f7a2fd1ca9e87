/** The steps that change a log keep the invariants: a leader adding an entry
    (its first one makes it leader) and a follower adopting its leader's log. */
module ProtocolLogs {
  import opened Entries
  import opened Protocol
  import opened ProtocolSteps
  import opened ProtocolKeeps

  // ------------------------------------------------------ a leader's new entry

  /** n adds e to its history h, which is the log of its term from now on. */
  predicate Adds(s: State, n: int, e: LogEntry, s': State)
    requires Known(s) && n in s.at
  {
    var t, h := s.at[n].term, s.at[n].hist + [e];
    && NextEntry(s, n, e) && (t in s.lead ==> s.lead[t] == s.at[n].hist)
    && s'.nodes == s.nodes && s'.limit == s.limit && s'.at.Keys == s.at.Keys
    && (forall m :: m in s.at && m != n ==> s'.at[m] == s.at[m])
    && s'.at[n].hist == h && s'.at[n].term == t && s'.at[n].vote == s.at[n].vote && s'.at[n].commit == s.at[n].commit
    && s'.lead == s.lead[t := h] && s'.ack == s.ack[(t, n) := |h|]
    && s'.stood == s.stood && s'.ballot == s.ballot && s'.done == s.done
  }

  lemma AddsGrows(s: State, n: int, e: LogEntry, s': State)
    requires Known(s) && Shape(s) && n in s.at && Adds(s, n, e, s')
    requires s.elected.Keys <= s'.elected.Keys && (forall t :: t in s.elected ==> s'.elected[t] == s.elected[t])
    ensures Grows(s, s')
  {
    hide Indexed, AllFit, Fits;
  }

  lemma EndsWith(h: Log, e: LogEntry)
    ensures LastTerm(h + [e]) == e.term
  {
  }

  lemma AddsShape(s: State, n: int, e: LogEntry, s': State)
    requires Known(s) && Shape(s) && Anchors(s) && n in s.at && Adds(s, n, e, s')
    requires s'.elected == s.elected[s.at[n].term := n] && 1 <= s.at[n].term
    ensures Shape(s')
  {
    hide Fits, Anchored, LastTerm;
    EndsWith(s.at[n].hist, e);
    AnchoredShape(s, s.at[n].hist);
  }

  lemma AddsTerms(s: State, n: int, e: LogEntry, s': State)
    requires Known(s) && Known(s') && Terms(s) && n in s.at && Adds(s, n, e, s')
    ensures Terms(s')
  {
  }

  lemma AddsAnchors(s: State, n: int, e: LogEntry, s': State)
    requires Known(s) && Known(s') && Anchors(s) && n in s.at && Adds(s, n, e, s') && Grows(s, s')
    ensures Anchors(s')
  {
    forall log | Anchored(s, log) ensures Anchored(s', log) { AnchoredGrows(s, s', log); }
    AnchoredEnd(s', s.at[n].hist, e);
  }

  lemma AnchoredEnd(s: State, log: Log, e: LogEntry)
    requires Anchored(s, log) && e.term in s.lead && log + [e] <= s.lead[e.term]
    ensures Anchored(s, log + [e])
  {
    var all := log + [e];
    forall i | 0 <= i < |all| ensures all[i].term in s.lead && all[..i + 1] <= s.lead[all[i].term] {
      if i < |log| { assert all[..i + 1] == log[..i + 1] && all[i] == log[i]; }
    }
  }

  lemma AddsAcks(s: State, n: int, e: LogEntry, s': State)
    requires Known(s) && Known(s') && Shape(s) && Acks(s) && n in s.at && Adds(s, n, e, s')
    ensures Acks(s')
  {
    hide Indexed, AllFit, Fits;
    forall t, m | (t, m) in s'.ack && m in s'.nodes && t in s'.lead && s'.ack[(t, m)] <= |s'.lead[t]|
      ensures t <= s'.at[m].term && (t == s'.at[m].term ==> s'.lead[t][..s'.ack[(t, m)]] <= s'.at[m].hist)
    {
      if (t, m) != (s.at[n].term, n) {
        assert s'.lead[t][..s.ack[(t, m)]] == s.lead[t][..s.ack[(t, m)]];
      }
    }
  }

  /** Only n can have acknowledged the position n just filled. */
  lemma AddsChoosable(s: State, n: int, e: LogEntry, s': State, t: nat, k: nat)
    requires Known(s) && Known(s') && Shape(s) && n in s.at && Adds(s, n, e, s') && Choosable(s', t, k)
    ensures t in s.lead && k <= |s.lead[t]| ==> Choosable(s, t, k) && s'.lead[t][..k] == s.lead[t][..k]
    ensures !(t in s.lead && k <= |s.lead[t]|) ==> t == s.at[n].term && forall m :: Acked(s', t, m, k) ==> m == n
  {
    hide Indexed, AllFit, Fits, Quorum;
    if t in s.lead && k <= |s.lead[t]| {
      ChoosableBefore(s, s', t, k);
    }
  }

  lemma AddsKept(s: State, n: int, e: LogEntry, s': State)
    requires Known(s) && Known(s') && Shape(s) && Kept(s) && n in s.at && Adds(s, n, e, s')
    ensures Kept(s')
  {
    hide Indexed, AllFit, Fits, Quorum, Open, Shape;
    forall t: nat, m, k: nat | m in s'.nodes && Acked(s', t, m, k) && Choosable(s', t, k)
      ensures s'.lead[t][..k] <= s'.at[m].hist
    {
      AddsChoosable(s, n, e, s', t, k);
      if t in s.lead && k <= |s.lead[t]| {
        AddsAcked(s, n, e, s', t, m, k);
        assert s.at[m].hist <= s'.at[m].hist;
      }
    }
  }

  lemma AddsAcked(s: State, n: int, e: LogEntry, s': State, t: nat, m: int, k: nat)
    requires Known(s) && n in s.at && Adds(s, n, e, s') && Acked(s', t, m, k)
    requires t in s.lead && k <= |s.lead[t]|
    ensures Acked(s, t, m, k) || (t == s.at[n].term && m == n && s.lead[t] == s.at[n].hist)
  {
  }

  lemma AddsVotes(s: State, n: int, e: LogEntry, s': State)
    requires Known(s) && Known(s') && Shape(s) && Ballots(s) && VotesSafe(s) && n in s.at && Adds(s, n, e, s')
    ensures VotesSafe(s')
  {
    hide Indexed, AllFit, Fits, Quorum, Open;
    forall t: nat, m, k: nat, u: nat
      | t < u && (u, m) in s'.ballot && (u, s'.ballot[(u, m)]) in s'.stood && Acked(s', t, m, k) && Choosable(s', t, k)
      ensures s'.lead[t][..k] <= s'.stood[(u, s'.ballot[(u, m)])]
    {
      AddsChoosable(s, n, e, s', t, k);
      if t in s.lead && k <= |s.lead[t]| {
        AddsAcked(s, n, e, s', t, m, k);
      }
    }
  }

  /** Once a later leader exists, nothing more is choosable in n's term. */
  lemma AddsNotLater(s: State, n: int, e: LogEntry, s': State, t: nat, k: nat, u: nat)
    requires Known(s) && Known(s') && Shape(s) && Ballots(s) && n in s.at && Adds(s, n, e, s')
    requires t < u && u in s.lead && Choosable(s', t, k)
    ensures t in s.lead && k <= |s.lead[t]|
  {
    hide Indexed, AllFit, Fits, VotesSafe;
    AddsChoosable(s, n, e, s', t, k);
    var v := QuorumsMeet(s.nodes, Open(s', t, k), Voters(s, u, s.elected[u]));
    assert u <= s.at[v].term && s'.at[v].term == s.at[v].term;
  }

  lemma AddsComplete(s: State, n: int, e: LogEntry, s': State)
    requires Known(s) && Known(s') && Shape(s) && Ballots(s) && Complete(s) && n in s.at && Adds(s, n, e, s')
    requires s.at[n].term in s.lead || NewLeaderHolds(s, n)
    ensures Complete(s')
  {
    hide Indexed, AllFit, Fits, Quorum, Open, Shape, Ballots;
    forall t: nat, k: nat, u: nat | t < u && u in s'.lead && Choosable(s', t, k)
      ensures s'.lead[t][..k] <= s'.lead[u]
    {
      AddsChoosable(s, n, e, s', t, k);
      if u in s.lead {
        AddsNotLater(s, n, e, s', t, k, u);
        assert s.lead[u] <= s'.lead[u];
      }
    }
  }

  /** n's history holds everything choosable in earlier terms. */
  ghost predicate NewLeaderHolds(s: State, n: int)
    requires Known(s) && n in s.at
  {
    forall t: nat, k: nat :: t < s.at[n].term && Choosable(s, t, k) ==> s.lead[t][..k] <= s.at[n].hist
  }

  // ------------------------------------------------------------- elections

  /** Election safety: the winner's term has no leader yet. */
  lemma WinFresh(s: State, n: int, e: LogEntry)
    requires Known(s) && Shape(s) && Roles(s) && Ballots(s) && CanWin(s, n, e)
    ensures s.at[n].term !in s.lead
  {
    hide Indexed, AllFit, Fits;
    var t := s.at[n].term;
    if t in s.lead {
      var v := QuorumsMeet(s.nodes, Voters(s, t, n), Voters(s, t, s.elected[t]));
      assert false;
    }
  }

  /** Leader completeness at the moment of election: one voter acknowledged
      the prefix, and it checked the winner's log. */
  lemma WinHolds(s: State, n: int, e: LogEntry)
    requires Known(s) && Shape(s) && Roles(s) && Ballots(s) && VotesSafe(s) && CanWin(s, n, e)
    ensures NewLeaderHolds(s, n)
  {
    hide Indexed, AllFit, Fits;
    var u := s.at[n].term;
    forall t: nat, k: nat | t < u && Choosable(s, t, k) ensures s.lead[t][..k] <= s.at[n].hist {
      var v := QuorumsMeet(s.nodes, Open(s, t, k), Voters(s, u, n));
      assert (u, v) in s.ballot && s.ballot[(u, v)] == n && Acked(s, t, v, k);
    }
  }

  lemma WinBasics(s: State, n: int, e: LogEntry)
    requires Known(s) && Roles(s) && Ballots(s) && CanWin(s, n, e) && s.at[n].term !in s.lead
    requires s.elected.Keys == s.lead.Keys
    ensures Roles(Win(s, n, e)) && Ballots(Win(s, n, e))
  {
    hide Quorum;
    var s' := Win(s, n, e);
    assert forall t, c :: Voters(s', t, c) == Voters(s, t, c);
  }

  lemma WinKeeps(s: State, n: int, e: LogEntry)
    requires Inv(s) && CanWin(s, n, e)
    ensures Inv(Win(s, n, e)) && Grows(s, Win(s, n, e)) && s.at[n].term !in s.lead
  {
    hide Shape, Terms, Anchors, Roles, Ballots, Acks, Kept, VotesSafe, Complete, Commits;
    var s' := Win(s, n, e);
    WinFresh(s, n, e);
    WinHolds(s, n, e);
    WinKeys(s, n);
    WinBasics(s, n, e);
    AddsGrows(s, n, e, s');
    AddsShape(s, n, e, s');
    AddsTerms(s, n, e, s');
    AddsAnchors(s, n, e, s');
    AddsAcks(s, n, e, s');
    AddsKept(s, n, e, s');
    AddsVotes(s, n, e, s');
    AddsComplete(s, n, e, s');
    CommitsKeep(s, s');
  }

  lemma WinKeys(s: State, n: int)
    requires Known(s) && Shape(s) && Terms(s) && Roles(s) && n in s.at && s.at[n].role.Candidate?
    ensures s.elected.Keys == s.lead.Keys && 1 <= s.at[n].term
  {
    hide Indexed, AllFit, Below;
  }

  lemma ExtendBasics(s: State, n: int, e: LogEntry)
    requires Known(s) && Shape(s) && Roles(s) && Ballots(s) && CanExtend(s, n, e)
    ensures Roles(Extend(s, n, e)) && Ballots(Extend(s, n, e))
    ensures s.elected == s.elected[s.at[n].term := n] && 1 <= s.at[n].term
    ensures s.at[n].term in s.lead && s.lead[s.at[n].term] == s.at[n].hist
  {
    hide Quorum, Indexed, AllFit, Fits, LastTerm;
    var s' := Extend(s, n, e);
    assert forall t, c :: Voters(s', t, c) == Voters(s, t, c);
  }

  lemma ExtendKeeps(s: State, n: int, e: LogEntry)
    requires Inv(s) && CanExtend(s, n, e)
    ensures Inv(Extend(s, n, e)) && Grows(s, Extend(s, n, e))
  {
    hide Shape, Terms, Anchors, Roles, Ballots, Acks, Kept, VotesSafe, Complete, Commits;
    var s' := Extend(s, n, e);
    ExtendBasics(s, n, e);
    AddsGrows(s, n, e, s');
    AddsShape(s, n, e, s');
    AddsTerms(s, n, e, s');
    AddsAnchors(s, n, e, s');
    AddsAcks(s, n, e, s');
    AddsKept(s, n, e, s');
    AddsVotes(s, n, e, s');
    AddsComplete(s, n, e, s');
    CommitsKeep(s, s');
  }

  // ----------------------------------------------- adopting a leader's log

  /** Whatever n shares with its leader survives. */
  lemma AdoptShares(s: State, n: int, j: nat, k: nat, p: Log)
    requires CanAdopt(s, n, j, k) && p <= s.at[n].hist && p <= s.lead[s.at[n].term]
    ensures p <= Adopt(s, n, j, k).at[n].hist
  {
    var h, l := s.at[n].hist, s.lead[s.at[n].term];
    assert |p| <= j by {
      if j < |p| { assert false; }
    }
    assert p == l[..|p|];
  }

  lemma AdoptAcks(s: State, n: int, j: nat, k: nat)
    requires Known(s) && Acks(s) && CanAdopt(s, n, j, k)
    ensures Acks(Adopt(s, n, j, k))
  {
    var u := s.at[n].term;
    var s' := Adopt(s, n, j, k);
    if (u, n) in s.ack && n in s.nodes && s.ack[(u, n)] <= |s.lead[u]| {
      AdoptShares(s, n, j, k, s.lead[u][..s.ack[(u, n)]]);
    }
    assert forall m :: m in s.nodes && m != n ==> s'.at[m] == s.at[m];
  }

  lemma AdoptKept(s: State, n: int, j: nat, k: nat)
    requires Known(s) && Shape(s) && Acks(s) && Kept(s) && Complete(s) && CanAdopt(s, n, j, k)
    ensures Kept(Adopt(s, n, j, k)) && Complete(Adopt(s, n, j, k))
  {
    hide Indexed, AllFit, Quorum, Open, LastTerm;
    var s' := Adopt(s, n, j, k);
    forall t: nat, i: nat | Choosable(s', t, i) ensures Choosable(s, t, i) {
      hide Kept, Complete, Acks;
      ChoosableBefore(s, s', t, i);
    }
    assert Complete(s') by { hide Kept, Acks, Choosable; }
    hide Complete;
    forall t: nat, m, i: nat | m in s'.nodes && Acked(s', t, m, i) && Choosable(s', t, i)
      ensures s'.lead[t][..i] <= s'.at[m].hist
    {
      if m == n {
        AdoptShares(s, n, j, k, s.lead[t][..i]);
      }
    }
  }

  lemma AdoptVotes(s: State, n: int, j: nat, k: nat)
    requires Known(s) && Shape(s) && VotesSafe(s) && CanAdopt(s, n, j, k)
    ensures VotesSafe(Adopt(s, n, j, k))
  {
    hide Indexed, AllFit, Quorum, Open;
    var s' := Adopt(s, n, j, k);
    forall t: nat, i: nat | Choosable(s', t, i) ensures Choosable(s, t, i) {
      ChoosableBefore(s, s', t, i);
    }
  }

  lemma AdoptBasics(s: State, n: int, j: nat, k: nat)
    requires Known(s) && Shape(s) && Terms(s) && Roles(s) && CanAdopt(s, n, j, k)
    ensures Shape(Adopt(s, n, j, k)) && Terms(Adopt(s, n, j, k)) && Roles(Adopt(s, n, j, k))
  {
    hide Indexed, AllFit, LastTerm;
  }

  lemma AdoptAnchors(s: State, n: int, j: nat, k: nat)
    requires Known(s) && Anchors(s) && CanAdopt(s, n, j, k)
    ensures Anchors(Adopt(s, n, j, k)) && Grows(s, Adopt(s, n, j, k))
  {
    var s' := Adopt(s, n, j, k);
    AnchoredPrefix(s, s.lead[s.at[n].term], k);
    forall log | Anchored(s, log) ensures Anchored(s', log) { AnchoredGrows(s, s', log); }
  }

  /** No committed entry is cut. */
  lemma AdoptCommitted(s: State, n: int, j: nat, k: nat)
    requires Known(s) && Complete(s) && Commits(s) && CanAdopt(s, n, j, k)
    ensures s.at[n].commit <= |s.at[n].hist|
    ensures s.at[n].hist[..s.at[n].commit] <= Adopt(s, n, j, k).at[n].hist
  {
    var p := s.at[n].hist[..s.at[n].commit];
    CertifiedInLead(s, p, s.at[n].term, s.at[n].term);
    AdoptShares(s, n, j, k, p);
  }

  lemma AdoptBallots(s: State, n: int, j: nat, k: nat)
    requires Known(s) && Ballots(s) && CanAdopt(s, n, j, k)
    ensures Ballots(Adopt(s, n, j, k))
  {
    hide Quorum;
    var s' := Adopt(s, n, j, k);
    assert forall t, c :: Voters(s', t, c) == Voters(s, t, c);
  }

  lemma AdoptKeeps(s: State, n: int, j: nat, k: nat)
    requires Inv(s) && CanAdopt(s, n, j, k)
    ensures Inv(Adopt(s, n, j, k)) && Grows(s, Adopt(s, n, j, k))
    ensures s.at[n].commit <= |s.at[n].hist|
    ensures s.at[n].hist[..s.at[n].commit] <= Adopt(s, n, j, k).at[n].hist
  {
    hide Shape, Terms, Anchors, Roles, Ballots, Acks, Kept, VotesSafe, Complete, Commits;
    var s' := Adopt(s, n, j, k);
    AdoptBasics(s, n, j, k);
    AdoptAnchors(s, n, j, k);
    AdoptBallots(s, n, j, k);
    AdoptAcks(s, n, j, k);
    AdoptKept(s, n, j, k);
    AdoptVotes(s, n, j, k);
    AdoptCommitted(s, n, j, k);
    CommitsKeep(s, s');
  }
}
