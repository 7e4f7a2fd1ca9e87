/** Every protocol step keeps the invariants. */
module ProtocolKeeps {
  import opened Entries
  import opened Protocol
  import opened ProtocolSteps

  /** No prefix becomes choosable that was not: terms rise, and a new
      acknowledgement comes from a node that had not left the term. */
  ghost predicate Narrows(s: State, s': State)
    requires Known(s)
  {
    && Known(s') && s'.nodes == s.nodes
    && (forall n :: n in s.nodes ==> s.at[n].term <= s'.at[n].term)
    && (forall t, n :: (t, n) in s'.ack && n in s.nodes ==>
          ((t, n) in s.ack && s.ack[(t, n)] == s'.ack[(t, n)]) || s.at[n].term <= t)
  }

  lemma ChoosableBefore(s: State, s': State, t: nat, k: nat)
    requires Known(s) && Narrows(s, s') && Choosable(s', t, k)
    requires t in s.lead && k <= |s.lead[t]| && t in s'.lead && s.lead[t] <= s'.lead[t]
    ensures Choosable(s, t, k)
  {
    WiderQuorum(s.nodes, Open(s', t, k), Open(s, t, k));
  }

  // ------------------------------------------------ steps that keep every log

  /** Only terms, votes, roles and commit indexes change. */
  ghost predicate SameLogs(s: State, s': State)
    requires Known(s)
  {
    && Narrows(s, s') && s'.limit == s.limit && s'.lead == s.lead && s'.elected == s.elected
    && s'.ack == s.ack && (forall n :: n in s.nodes ==> s'.at[n].hist == s.at[n].hist)
  }

  lemma SameLogsKeep(s: State, s': State)
    requires Shape(s) && Complete(s) && Kept(s) && Acks(s) && SameLogs(s, s')
    ensures Complete(s') && Kept(s') && Acks(s')
  {
    hide LastTerm, Indexed, AllFit;
    forall t: nat, k: nat | Choosable(s', t, k) ensures Choosable(s, t, k) {
      ChoosableBefore(s, s', t, k);
    }
  }

  lemma SameBallotsKeep(s: State, s': State)
    requires Shape(s) && VotesSafe(s) && SameLogs(s, s') && s'.stood == s.stood && s'.ballot == s.ballot
    ensures VotesSafe(s')
  {
    forall t: nat, k: nat | Choosable(s', t, k) ensures Choosable(s, t, k) {
      ChoosableBefore(s, s', t, k);
    }
  }

  lemma CommitsKeep(s: State, s': State)
    requires Known(s) && Known(s') && Grows(s, s') && Commits(s) && s'.done == s.done
    requires forall n :: n in s.nodes ==>
      && s'.at[n].commit == s.at[n].commit && s.at[n].term <= s'.at[n].term
      && (s.at[n].commit <= |s.at[n].hist| ==> s.at[n].hist[..s.at[n].commit] <= s'.at[n].hist)
    ensures Commits(s')
  {
    hide Certified;
    forall n | n in s.nodes
      ensures Certified(s', s'.at[n].hist[..s'.at[n].commit], s'.at[n].term)
    {
      assert s'.at[n].hist[..s'.at[n].commit] == s.at[n].hist[..s.at[n].commit];
      CertifiedGrows(s, s', s.at[n].hist[..s.at[n].commit], s.at[n].term, s'.at[n].term);
    }
    var bound: nat :| Certified(s, s.done, bound);
    CertifiedGrows(s, s', s.done, bound, bound);
  }

  lemma AnchorsKeep(s: State, s': State)
    requires Known(s) && Known(s') && Anchors(s) && Grows(s, s') && s'.lead == s.lead && s'.stood == s.stood
    requires forall n :: n in s.nodes ==> s'.at[n].hist == s.at[n].hist
    ensures Anchors(s')
  {
    forall log | Anchored(s, log) ensures Anchored(s', log) { AnchoredGrows(s, s', log); }
  }

  lemma VotersKeep(s: State, s': State)
    requires s'.nodes == s.nodes && s'.elected == s.elected && Grows(s, s')
    requires forall t :: t in s.elected ==> Quorum(s.nodes, Voters(s, t, s.elected[t]))
    ensures forall t :: t in s'.elected ==> Quorum(s'.nodes, Voters(s', t, s'.elected[t]))
  {
    forall t | t in s'.elected ensures Quorum(s'.nodes, Voters(s', t, s'.elected[t])) {
      WiderQuorum(s.nodes, Voters(s, t, s.elected[t]), Voters(s', t, s.elected[t]));
    }
  }

  /** A step whose member changes leave histories, commits and facts alone. */
  ghost predicate Quiet(s: State, s': State)
    requires Known(s)
  {
    && SameLogs(s, s') && s'.stood == s.stood && s'.ballot == s.ballot && s'.done == s.done
    && (forall n :: n in s.nodes ==> s'.at[n].commit == s.at[n].commit)
  }

  lemma QuietKeeps(s: State, s': State)
    requires Inv(s) && Quiet(s, s')
    ensures Grows(s, s') && Anchors(s') && Acks(s') && Kept(s') && VotesSafe(s') && Complete(s') && Commits(s')
  {
    hide Shape, Terms, Anchors, Roles, Ballots, Acks, Kept, VotesSafe, Complete, Commits;
    SameLogsKeep(s, s');
    SameBallotsKeep(s, s');
    CommitsKeep(s, s');
    AnchorsKeep(s, s');
  }

  lemma QuietShape(s: State, s': State)
    requires Known(s) && Shape(s) && Terms(s) && Quiet(s, s')
    ensures Shape(s') && Terms(s')
  {
  }

  lemma BumpBasics(s: State, n: int, t: nat)
    requires Known(s) && Roles(s) && Ballots(s) && CanBump(s, n, t)
    ensures Roles(Bump(s, n, t)) && Ballots(Bump(s, n, t))
  {
    var s' := Bump(s, n, t);
    VotersKeep(s, s');
  }

  lemma BumpKeeps(s: State, n: int, t: nat)
    requires Inv(s) && CanBump(s, n, t)
    ensures Inv(Bump(s, n, t)) && Grows(s, Bump(s, n, t))
  {
    hide Shape, Terms, Anchors, Roles, Ballots, Acks, Kept, VotesSafe, Complete, Commits;
    var s' := Bump(s, n, t);
    QuietKeeps(s, s');
    QuietShape(s, s');
    BumpBasics(s, n, t);
  }

  lemma RestBasics(s: State, n: int)
    requires Known(s) && Roles(s) && Ballots(s) && n in s.at
    ensures Roles(Rest(s, n)) && Ballots(Rest(s, n))
  {
    VotersKeep(s, Rest(s, n));
  }

  lemma RestKeeps(s: State, n: int)
    requires Inv(s) && n in s.at
    ensures Inv(Rest(s, n)) && Grows(s, Rest(s, n))
  {
    hide Shape, Terms, Anchors, Roles, Ballots, Acks, Kept, VotesSafe, Complete, Commits;
    var s' := Rest(s, n);
    QuietKeeps(s, s');
    QuietShape(s, s');
    RestBasics(s, n);
  }

  lemma CommitCommits(s: State, n: int, c: nat)
    requires Known(s) && Complete(s) && Commits(s) && CanCommit(s, n, c)
    ensures Commits(Commit(s, n, c)) && Grows(s, Commit(s, n, c))
    ensures s.at[n].hist[..c] <= Commit(s, n, c).done
  {
    hide Certified, Complete;
    var s' := Commit(s, n, c);
    var log := s.at[n].hist[..c];
    var bound: nat :| Certified(s, s.done, bound);
    CertifiedAgree(s, s.done, log, bound, s.at[n].term);
    assert s.done <= s'.done && log <= s'.done;
    CertifiedGrows(s, s', log, s.at[n].term, s.at[n].term);
    CertifiedGrows(s, s', s.done, bound, bound);
    forall m | m in s.nodes
      ensures Certified(s', s'.at[m].hist[..s'.at[m].commit], s'.at[m].term)
      ensures s'.at[m].hist[..s'.at[m].commit] <= s'.done
    {
      if m != n { CertifiedGrows(s, s', s.at[m].hist[..s.at[m].commit], s.at[m].term, s.at[m].term); }
    }
  }

  lemma CommitShape(s: State, n: int, c: nat)
    requires Known(s) && Shape(s) && Terms(s) && CanCommit(s, n, c)
    ensures Shape(Commit(s, n, c)) && Terms(Commit(s, n, c))
  {
  }

  lemma CommitBasics(s: State, n: int, c: nat)
    requires Known(s) && Roles(s) && Ballots(s) && CanCommit(s, n, c) && Grows(s, Commit(s, n, c))
    ensures Roles(Commit(s, n, c)) && Ballots(Commit(s, n, c))
  {
    hide Certified, Quorum;
    VotersKeep(s, Commit(s, n, c));
  }

  lemma CommitKeeps(s: State, n: int, c: nat)
    requires Inv(s) && CanCommit(s, n, c)
    ensures Inv(Commit(s, n, c)) && Grows(s, Commit(s, n, c))
    ensures s.at[n].hist[..c] <= Commit(s, n, c).done
  {
    hide Shape, Terms, Anchors, Roles, Ballots, Acks, Kept, VotesSafe, Complete, Commits;
    var s' := Commit(s, n, c);
    CommitCommits(s, n, c);
    CommitShape(s, n, c);
    CommitBasics(s, n, c);
    SameLogsKeep(s, s');
    SameBallotsKeep(s, s');
    AnchorsKeep(s, s');
  }

  // ------------------------------------------------------------- standing

  lemma StandShape(s: State, n: int)
    requires Known(s) && Shape(s) && Terms(s) && n in s.at
    ensures Shape(Stand(s, n)) && Terms(Stand(s, n))
  {
    hide Indexed, AllFit, LastTerm;
  }

  lemma StandGrows(s: State, n: int)
    requires Known(s) && Shape(s) && Roles(s) && Ballots(s) && n in s.at
    ensures Grows(s, Stand(s, n))
  {
    hide Quorum, Indexed, AllFit;
    var t := s.at[n].term + 1;
    assert (t, n) !in s.stood && (t, n) !in s.ballot;
  }

  lemma StandRoles(s: State, n: int)
    requires Known(s) && Roles(s) && n in s.at
    ensures Roles(Stand(s, n))
  {
    var s' := Stand(s, n);
    assert forall m :: m in s.nodes && m != n ==> s'.at[m] == s.at[m];
  }

  lemma StandBallots(s: State, n: int)
    requires Known(s) && Ballots(s) && n in s.at && Grows(s, Stand(s, n))
    ensures Ballots(Stand(s, n))
  {
    hide Quorum;
    VotersKeep(s, Stand(s, n));
  }

  lemma StandAnchors(s: State, n: int)
    requires Known(s) && Anchors(s) && n in s.at && Grows(s, Stand(s, n))
    ensures Anchors(Stand(s, n))
  {
    forall log | Anchored(s, log) ensures Anchored(Stand(s, n), log) { AnchoredGrows(s, Stand(s, n), log); }
  }

  lemma StandVotes(s: State, n: int)
    requires Known(s) && Shape(s) && Kept(s) && VotesSafe(s) && n in s.at
    requires Grows(s, Stand(s, n))
    ensures VotesSafe(Stand(s, n))
  {
    var s' := Stand(s, n);
    forall t: nat, m, k: nat, u: nat | t < u && (u, m) in s'.ballot && (u, s'.ballot[(u, m)]) in s'.stood
        && Acked(s', t, m, k) && Choosable(s', t, k)
      ensures s'.lead[t][..k] <= s'.stood[(u, s'.ballot[(u, m)])]
    {
      hide Quorum, Open, Kept, VotesSafe;
      ChoosableBefore(s, s', t, k);
      StandVote(s, n, t, m, k, u);
    }
  }

  lemma StandVote(s: State, n: int, t: nat, m: int, k: nat, u: nat)
    requires Known(s) && Shape(s) && Kept(s) && VotesSafe(s) && n in s.at && Grows(s, Stand(s, n))
    requires t < u && (u, m) in Stand(s, n).ballot && Acked(s, t, m, k) && Choosable(s, t, k)
    requires (u, Stand(s, n).ballot[(u, m)]) in Stand(s, n).stood
    ensures s.lead[t][..k] <= Stand(s, n).stood[(u, Stand(s, n).ballot[(u, m)])]
  {
    hide Choosable, Indexed, AllFit, LastTerm;
    if u == s.at[n].term + 1 && m == n {
      assert s.lead[t][..k] <= s.at[n].hist by { hide VotesSafe; }
    } else {
      hide Kept;
      assert (u, m) in s.ballot && Stand(s, n).ballot[(u, m)] == s.ballot[(u, m)];
    }
  }

  lemma StandKeeps(s: State, n: int)
    requires Inv(s) && n in s.at
    ensures Inv(Stand(s, n)) && Grows(s, Stand(s, n))
  {
    hide Shape, Terms, Anchors, Roles, Ballots, Acks, Kept, VotesSafe, Complete, Commits;
    var s' := Stand(s, n);
    StandShape(s, n);
    StandGrows(s, n);
    StandRoles(s, n);
    StandBallots(s, n);
    StandAnchors(s, n);
    StandVotes(s, n);
    SameLogsKeep(s, s');
    CommitsKeep(s, s');
  }

  // --------------------------------------------------------------- voting

  /** The election rule: a candidate at least as recent as the voter holds
      every still-choosable prefix the voter acknowledged. */
  lemma RecentHolds(s: State, h: Log, c: Log, t: nat, k: nat)
    requires Known(s) && Complete(s) && Choosable(s, t, k) && s.lead[t][..k] <= h
    requires forall u :: u in s.lead ==> 1 <= u && Below(s.lead[u], u)
    requires Anchored(s, h) && Anchored(s, c)
    requires AtLeastAsRecent(|c|, LastTerm(c), |h|, LastTerm(h))
    ensures s.lead[t][..k] <= c
  {
    var p := s.lead[t][..k];
    assert p[k - 1] == h[k - 1] && h[k - 1].term == t;
    TermsRise(s, h, k - 1, |h| - 1);
    var u := LastTerm(c);
    assert |c| > 0;
    assert c[..|c| - 1 + 1] == c && c <= s.lead[u];
    if u == LastTerm(h) {
      Matching(s, c, h, |h|) by { TermsRise(s, c, |h| - 1, |c| - 1); SameTermAt(s, c, h); }
      assert h <= c;
    } else {
      var l := s.lead[u];
      assert p <= l;
      if |c| < k {
        ShorterIsOlder(p, c, l, t);
        assert false;
      }
      PrefixesNest(p, c, l);
    }
  }

  lemma ShorterIsOlder(p: Log, c: Log, l: Log, t: nat)
    requires p <= l && c <= l && 0 < |c| <= |p| && Below(p, t)
    ensures LastTerm(c) <= t
  {
    assert c[|c| - 1] == l[|c| - 1] == p[|c| - 1];
  }

  /** With equal last terms the longer log has that term where the shorter one ends. */
  lemma SameTermAt(s: State, c: Log, h: Log)
    requires Anchored(s, h) && Anchored(s, c)
    requires 0 < |h| <= |c| && LastTerm(c) == LastTerm(h)
    ensures c[|h| - 1].term == h[|h| - 1].term
  {
    assert c[..|c| - 1 + 1] == c && c <= s.lead[LastTerm(c)];
    assert h[..|h| - 1 + 1] == h && h <= s.lead[LastTerm(h)];
  }

  lemma CastShape(s: State, n: int, c: int)
    requires Known(s) && Shape(s) && Terms(s) && CanCast(s, n, c)
    ensures Shape(Cast(s, n, c)) && Terms(Cast(s, n, c))
  {
  }

  lemma CastGrows(s: State, n: int, c: int)
    requires Known(s) && Shape(s) && Ballots(s) && CanCast(s, n, c)
    ensures Grows(s, Cast(s, n, c))
  {
    hide Quorum, Indexed, AllFit;
    assert (s.at[n].term, n) !in s.ballot;
  }

  lemma CastRoles(s: State, n: int, c: int)
    requires Known(s) && Roles(s) && CanCast(s, n, c)
    ensures Roles(Cast(s, n, c))
  {
  }

  lemma CastBallots(s: State, n: int, c: int)
    requires Known(s) && Ballots(s) && CanCast(s, n, c) && Grows(s, Cast(s, n, c))
    ensures Ballots(Cast(s, n, c))
  {
    hide Quorum;
    VotersKeep(s, Cast(s, n, c));
  }

  lemma CastVotes(s: State, n: int, c: int)
    requires Known(s) && Shape(s) && Terms(s) && Anchors(s) && Kept(s) && VotesSafe(s) && Complete(s)
    requires CanCast(s, n, c) && Grows(s, Cast(s, n, c))
    ensures VotesSafe(Cast(s, n, c))
  {
    hide Anchored, Below, Indexed, AllFit, Quorum, Open, Fits;
    var s' := Cast(s, n, c);
    forall t: nat, k: nat | Choosable(s', t, k) ensures Choosable(s, t, k) {
      ChoosableBefore(s, s', t, k);
    }
    var log := s.stood[(s.at[n].term, c)];
    forall t: nat, k: nat | Acked(s, t, n, k) && Choosable(s, t, k) ensures s.lead[t][..k] <= log {
      RecentHolds(s, s.at[n].hist, log, t, k);
    }
  }

  lemma CastKeeps(s: State, n: int, c: int)
    requires Inv(s) && CanCast(s, n, c)
    ensures Inv(Cast(s, n, c)) && Grows(s, Cast(s, n, c))
  {
    hide Shape, Terms, Anchors, Roles, Ballots, Acks, Kept, VotesSafe, Complete, Commits;
    var s' := Cast(s, n, c);
    CastShape(s, n, c);
    CastGrows(s, n, c);
    CastRoles(s, n, c);
    CastBallots(s, n, c);
    CastVotes(s, n, c);
    SameLogsKeep(s, s');
    CommitsKeep(s, s');
    AnchorsKeep(s, s');
  }

  // -------------------------------------------------------- acknowledging

  lemma AckBasics(s: State, n: int, k: nat)
    requires Known(s) && Shape(s) && Acks(s) && CanAck(s, n, k)
    ensures Shape(Ack(s, n, k)) && Acks(Ack(s, n, k)) && Grows(s, Ack(s, n, k))
  {
    hide Indexed, AllFit, Fits, LastTerm;
  }

  lemma AckKept(s: State, n: int, k: nat)
    requires Known(s) && Shape(s) && Kept(s) && CanAck(s, n, k)
    ensures Kept(Ack(s, n, k))
  {
    hide Quorum, Open;
    var s' := Ack(s, n, k);
    forall t: nat, m, i: nat | m in s'.nodes && Acked(s', t, m, i) && Choosable(s', t, i)
      ensures s'.lead[t][..i] <= s'.at[m].hist
    {
      ChoosableBefore(s, s', t, i);
      if !Acked(s, t, m, i) {
        assert s.lead[t][..i] == s.lead[t][..k][..i];
      }
    }
  }

  lemma AckVotes(s: State, n: int, k: nat)
    requires Known(s) && Shape(s) && Ballots(s) && VotesSafe(s) && Complete(s) && CanAck(s, n, k)
    ensures VotesSafe(Ack(s, n, k)) && Complete(Ack(s, n, k))
  {
    hide Quorum, Open;
    var s' := Ack(s, n, k);
    forall t: nat, i: nat | Choosable(s', t, i) ensures Choosable(s, t, i) {
      ChoosableBefore(s, s', t, i);
    }
  }

  lemma AckKeeps(s: State, n: int, k: nat)
    requires Inv(s) && CanAck(s, n, k)
    ensures Inv(Ack(s, n, k)) && Grows(s, Ack(s, n, k))
  {
    hide Shape, Terms, Anchors, Roles, Ballots, Acks, Kept, VotesSafe, Complete, Commits;
    var s' := Ack(s, n, k);
    AckBasics(s, n, k);
    AckKept(s, n, k);
    AckVotes(s, n, k);
    CommitsKeep(s, s');
    AnchorsKeep(s, s');
    AckRest(s, n, k);
  }

  lemma AckRest(s: State, n: int, k: nat)
    requires Known(s) && Terms(s) && Roles(s) && Ballots(s) && CanAck(s, n, k) && Grows(s, Ack(s, n, k))
    ensures Terms(Ack(s, n, k)) && Roles(Ack(s, n, k)) && Ballots(Ack(s, n, k))
  {
    hide Quorum, Below;
    VotersKeep(s, Ack(s, n, k));
  }
}
