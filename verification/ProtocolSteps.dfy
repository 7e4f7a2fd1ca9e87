/** The nine ways the protocol state changes, and the invariants each one keeps. */
module ProtocolSteps {
  import opened Entries
  import opened Protocol

  function With(s: State, n: int, m: Member): State {
    s.(at := s.at[n := m])
  }

  // ------------------------------------------------------------- the steps

  predicate CanBump(s: State, n: int, t: nat) {
    n in s.at && s.at[n].term < t
  }

  function Bump(s: State, n: int, t: nat): State
    requires CanBump(s, n, t)
  {
    With(s, n, s.at[n].(term := t, vote := NO_VOTE, role := Follower))
  }

  function Stand(s: State, n: int): State
    requires n in s.at
  {
    var t := s.at[n].term + 1;
    With(s, n, s.at[n].(term := t, vote := n, role := Candidate))
      .(stood := s.stood[(t, n) := s.at[n].hist], ballot := s.ballot[(t, n) := n])
  }

  predicate CanCast(s: State, n: int, c: int) {
    && n in s.at
    && var m := s.at[n];
    && m.vote == NO_VOTE && 0 <= c && (m.term, c) in s.stood
    && var log := s.stood[(m.term, c)];
    AtLeastAsRecent(|log|, LastTerm(log), |m.hist|, LastTerm(m.hist))
  }

  function Cast(s: State, n: int, c: int): State
    requires CanCast(s, n, c)
  {
    With(s, n, s.at[n].(vote := c)).(ballot := s.ballot[(s.at[n].term, n) := c])
  }

  predicate NextEntry(s: State, n: int, e: LogEntry)
    requires n in s.at
  {
    e.index == |s.at[n].hist| + 1 && e.term == s.at[n].term && Fits(e, s.limit)
  }

  predicate CanWin(s: State, n: int, e: LogEntry) {
    && n in s.at && s.at[n].role == Candidate && NextEntry(s, n, e)
    && Quorum(s.nodes, Voters(s, s.at[n].term, n))
  }

  /** The winner's log, ended by its own first entry, becomes its term's log. */
  function Win(s: State, n: int, e: LogEntry): State
    requires CanWin(s, n, e)
  {
    var t, h := s.at[n].term, s.at[n].hist + [e];
    With(s, n, s.at[n].(hist := h, role := Leader))
      .(lead := s.lead[t := h], elected := s.elected[t := n], ack := s.ack[(t, n) := |h|])
  }

  predicate CanExtend(s: State, n: int, e: LogEntry) {
    n in s.at && s.at[n].role == Leader && NextEntry(s, n, e)
  }

  function Extend(s: State, n: int, e: LogEntry): State
    requires CanExtend(s, n, e)
  {
    var t, h := s.at[n].term, s.at[n].hist + [e];
    With(s, n, s.at[n].(hist := h)).(lead := s.lead[t := h], ack := s.ack[(t, n) := |h|])
  }

  /** j is as far as n agrees with its term's leader: either n has nothing
      more, or the two logs hold different entries there. */
  predicate CanAdopt(s: State, n: int, j: nat, k: nat) {
    && n in s.at && !s.at[n].role.Leader? && s.at[n].term in s.lead
    && var h, l := s.at[n].hist, s.lead[s.at[n].term];
    && j <= k <= |l| && j <= |h| && h[..j] == l[..j]
    && (j == |h| || (j < |l| && h[j] != l[j]))
  }

  function Adopt(s: State, n: int, j: nat, k: nat): State
    requires CanAdopt(s, n, j, k)
  {
    With(s, n, s.at[n].(hist := s.lead[s.at[n].term][..k], role := Follower))
  }

  predicate CanAck(s: State, n: int, k: nat) {
    && n in s.at && s.at[n].term in s.lead && k <= |s.lead[s.at[n].term]|
    && s.lead[s.at[n].term][..k] <= s.at[n].hist
  }

  function Ack(s: State, n: int, k: nat): State
    requires CanAck(s, n, k)
  {
    var x := (s.at[n].term, n);
    s.(ack := s.ack[x := if x in s.ack then Max(s.ack[x], k) else k])
  }

  ghost predicate CanCommit(s: State, n: int, c: nat) {
    n in s.at && s.at[n].commit <= c <= |s.at[n].hist| && Certified(s, s.at[n].hist[..c], s.at[n].term)
  }

  ghost function Commit(s: State, n: int, c: nat): State
    requires CanCommit(s, n, c)
  {
    With(s, n, s.at[n].(commit := c)).(done := if |s.done| < c then s.at[n].hist[..c] else s.done)
  }

  function Rest(s: State, n: int): State
    requires n in s.at
  {
    With(s, n, s.at[n].(role := Follower))
  }

  // -------------------------------------------------- what growth preserves

  lemma ChosenGrows(s: State, s': State, t: nat, k: nat)
    requires Grows(s, s') && Chosen(s, t, k)
    ensures Chosen(s', t, k)
  {
    WiderQuorum(s.nodes, Ackers(s, t, k), Ackers(s', t, k));
  }

  lemma CertifiedGrows(s: State, s': State, log: Log, bound: nat, bound': nat)
    requires Grows(s, s') && Certified(s, log, bound) && bound <= bound'
    ensures Certified(s', log, bound')
  {
    if |log| != 0 {
      var t: nat, k: nat :| t <= bound && Chosen(s, t, k) && |log| <= k && log <= s.lead[t];
      ChosenGrows(s, s', t, k);
      assert log <= s'.lead[t];
    }
  }

  lemma AnchoredGrows(s: State, s': State, log: Log)
    requires Grows(s, s') && Anchored(s, log)
    ensures Anchored(s', log)
  {
    forall i | 0 <= i < |log| ensures log[i].term in s'.lead && log[..i + 1] <= s'.lead[log[i].term] {
      assert log[..i + 1] <= s.lead[log[i].term] <= s'.lead[log[i].term];
    }
  }

  lemma AnchoredPrefix(s: State, log: Log, k: nat)
    requires Anchored(s, log) && k <= |log|
    ensures Anchored(s, log[..k])
  {
    forall i | 0 <= i < k ensures log[i].term in s.lead && log[..k][..i + 1] <= s.lead[log[i].term] {
      assert log[..k][..i + 1] == log[..i + 1];
    }
  }

  /** Histories built from leader logs inherit their shape. */
  lemma AnchoredShape(s: State, log: Log)
    requires Anchored(s, log)
    requires forall t :: t in s.lead ==> Indexed(s.lead[t]) && AllFit(s.lead[t], s.limit)
    ensures Indexed(log) && AllFit(log, s.limit)
  {
    if log != [] {
      var l := s.lead[LastTerm(log)];
      assert log[..|log| - 1 + 1] == log && log <= l;
      assert forall i :: 0 <= i < |log| ==> log[i] == l[i];
    }
  }

  // --------------------------------------------------------- log matching

  /** Two logs of the cluster with the same term at an index are the same up to it. */
  lemma Matching(s: State, a: Log, b: Log, i: nat)
    requires Anchored(s, a) && Anchored(s, b)
    requires 0 < i <= |a| && i <= |b| && a[i - 1].term == b[i - 1].term
    ensures a[..i] == b[..i]
  {
    assert a[..i - 1 + 1] <= s.lead[a[i - 1].term];
    assert b[..i - 1 + 1] <= s.lead[b[i - 1].term];
  }

  /** Terms never decrease along a log of the cluster. */
  lemma TermsRise(s: State, log: Log, i: nat, j: nat)
    requires Anchored(s, log) && (forall t :: t in s.lead ==> Below(s.lead[t], t))
    requires i <= j < |log|
    ensures log[i].term <= log[j].term
  {
    var l := s.lead[log[j].term];
    assert log[..j + 1] <= l;
    assert log[i] == log[..j + 1][i] == l[i];
  }

  lemma ChosenChoosable(s: State, t: nat, k: nat)
    requires Known(s) && Chosen(s, t, k)
    ensures Choosable(s, t, k)
  {
    WiderQuorum(s.nodes, Ackers(s, t, k), Open(s, t, k));
  }

  // ------------------------------------------------- agreement on commits

  /** A prefix chosen up to a term is in that term's leader log. */
  lemma CertifiedInLead(s: State, log: Log, bound: nat, u: nat)
    requires Known(s) && Complete(s) && Certified(s, log, bound) && bound <= u && u in s.lead
    ensures log <= s.lead[u]
  {
    if |log| != 0 {
      var t: nat, k: nat :| t <= bound && Chosen(s, t, k) && |log| <= k && log <= s.lead[t];
      if t < u {
        ChosenChoosable(s, t, k);
        assert s.lead[t][..k] <= s.lead[u];
        assert log == s.lead[t][..k][..|log|];
      }
    }
  }

  lemma CertifiedAgree(s: State, a: Log, b: Log, x: nat, y: nat)
    requires Known(s) && Complete(s) && Certified(s, a, x) && Certified(s, b, y)
    ensures a <= b || b <= a
  {
    if |a| != 0 && |b| != 0 {
      var t: nat, k: nat :| t <= x && Chosen(s, t, k) && |a| <= k && a <= s.lead[t];
      var u: nat, m: nat :| u <= y && Chosen(s, u, m) && |b| <= m && b <= s.lead[u];
      assert Certified(s, a, t) && Certified(s, b, u);
      var w := Max(t, u);
      CertifiedInLead(s, a, t, w);
      CertifiedInLead(s, b, u, w);
      if |a| <= |b| { PrefixesNest(a, b, s.lead[w]); } else { PrefixesNest(b, a, s.lead[w]); }
    }
  }
}
