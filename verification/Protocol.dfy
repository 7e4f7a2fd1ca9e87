/** The consensus protocol on full histories: what each durable change of a
    node means for the whole cluster, and why committed prefixes never fork.

    Besides what nodes store, the state records facts that only grow: the log
    of every elected leader, every candidacy, every ballot and every
    acknowledged prefix. A prefix of a leader's log is chosen once a quorum
    acknowledged it, and it is choosable while every node of some quorum either
    acknowledged it or has not yet moved past that leader's term.
 */
module Protocol {
  import opened Entries

  datatype Member = Member(term: nat, vote: int, hist: Log, commit: nat, role: Role)

  datatype State = State(
    nodes: set<int>,
    limit: nat,
    at: map<int, Member>,
    lead: map<nat, Log>,          // log of the leader elected in a term
    elected: map<nat, int>,       // who that leader is
    stood: map<(nat, int), Log>,  // candidate's history when it stood in a term
    ballot: map<(nat, int), int>, // (term, voter) -> candidate
    ack: map<(nat, int), nat>,    // (term, node) -> prefix length acknowledged to that term's leader
    done: Log)                    // longest prefix committed anywhere

  // ---------------------------------------------------------------- quorums

  predicate Quorum(nodes: set<int>, s: set<int>) {
    s <= nodes && 2 * |s| > |nodes|
  }

  lemma QuorumsMeet(nodes: set<int>, a: set<int>, b: set<int>) returns (n: int)
    requires Quorum(nodes, a) && Quorum(nodes, b)
    ensures n in a && n in b
  {
    var both := a * b;
    assert |a + b| == |a| + |b| - |both|;
    Subset(a + b, nodes);
    n := Pick(both);
  }

  lemma Pick(s: set<int>) returns (n: int)
    requires s != {}
    ensures n in s
  {
    if forall x :: x !in s { assert false; }
    n :| n in s;
  }

  lemma Subset(a: set<int>, b: set<int>)
    requires a <= b
    ensures |a| <= |b|
  {
    assert b == a + (b - a);
    assert |b| == |a| + |b - a|;
  }

  lemma WiderQuorum(nodes: set<int>, a: set<int>, b: set<int>)
    requires Quorum(nodes, a) && a <= b <= nodes
    ensures Quorum(nodes, b)
  {
    Subset(a, b);
  }

  // ------------------------------------------------------- recorded facts

  predicate Known(s: State) {
    s.at.Keys == s.nodes
  }

  predicate Acked(s: State, t: nat, n: int, k: nat) {
    (t, n) in s.ack && k <= s.ack[(t, n)]
  }

  function Voters(s: State, t: nat, c: int): set<int> {
    set n | n in s.nodes && (t, n) in s.ballot && s.ballot[(t, n)] == c
  }

  function Ackers(s: State, t: nat, k: nat): set<int> {
    set n | n in s.nodes && Acked(s, t, n, k)
  }

  function Open(s: State, t: nat, k: nat): set<int>
    requires Known(s)
  {
    set n | n in s.nodes && (Acked(s, t, n, k) || s.at[n].term <= t)
  }

  /** Position k of term t's leader log holds an entry that leader created. */
  predicate Own(s: State, t: nat, k: nat) {
    t in s.lead && 0 < k <= |s.lead[t]| && s.lead[t][k - 1].term == t
  }

  predicate Chosen(s: State, t: nat, k: nat) {
    Own(s, t, k) && Quorum(s.nodes, Ackers(s, t, k))
  }

  predicate Choosable(s: State, t: nat, k: nat)
    requires Known(s)
  {
    Own(s, t, k) && Quorum(s.nodes, Open(s, t, k))
  }

  /** log is covered by a prefix chosen in some term up to bound. */
  ghost predicate Certified(s: State, log: Log, bound: nat) {
    |log| == 0 || exists t: nat, k: nat :: t <= bound && Chosen(s, t, k) && |log| <= k && log <= s.lead[t]
  }

  // ------------------------------------------------------------ invariants

  ghost predicate Anchored(s: State, log: Log) {
    forall i :: 0 <= i < |log| ==>
      log[i].term in s.lead && log[..i + 1] <= s.lead[log[i].term]
  }

  predicate Below(log: Log, bound: nat) {
    forall i :: 0 <= i < |log| ==> log[i].term <= bound
  }

  ghost predicate Shape(s: State) {
    && Known(s)
    && s.elected.Keys == s.lead.Keys
    && (forall n :: n in s.nodes ==> 0 <= n)
    && (forall t :: t in s.lead ==> 1 <= t && s.elected[t] in s.nodes && s.lead[t] != [] && LastTerm(s.lead[t]) == t)
    && (forall t :: t in s.lead ==> Indexed(s.lead[t]) && AllFit(s.lead[t], s.limit))
    && (forall t, c :: (t, c) in s.stood ==> c in s.nodes)
    && (forall t, n :: (t, n) in s.ballot ==> n in s.nodes && (t, s.ballot[(t, n)]) in s.stood)
    && (forall t, n :: (t, n) in s.ack ==> n in s.nodes && t in s.lead && s.ack[(t, n)] <= |s.lead[t]|)
  }

  ghost predicate Terms(s: State)
    requires Known(s)
  {
    && (forall t :: t in s.lead ==> Below(s.lead[t], t))
    && (forall n :: n in s.nodes ==> Below(s.at[n].hist, s.at[n].term))
    && (forall t, c :: (t, c) in s.stood ==> 1 <= t && Below(s.stood[(t, c)], t - 1))
  }

  ghost predicate Anchors(s: State)
    requires Known(s)
  {
    && (forall t :: t in s.lead ==> Anchored(s, s.lead[t]))
    && (forall n :: n in s.nodes ==> Anchored(s, s.at[n].hist))
    && (forall t, c :: (t, c) in s.stood ==> Anchored(s, s.stood[(t, c)]))
  }

  ghost predicate Roles(s: State)
    requires Known(s)
  {
    && (forall n :: n in s.nodes && s.at[n].role.Leader? ==>
          var t := s.at[n].term; t in s.lead && t in s.elected && s.elected[t] == n && s.lead[t] == s.at[n].hist)
    && (forall n :: n in s.nodes && s.at[n].role.Candidate? ==>
          var t := s.at[n].term;
          (t, n) in s.stood && s.stood[(t, n)] == s.at[n].hist && !(t in s.elected && s.elected[t] == n))
    && (forall t :: t in s.elected && s.elected[t] in s.nodes ==> t <= s.at[s.elected[t]].term)
    && (forall t, c :: (t, c) in s.stood && c in s.nodes ==> t <= s.at[c].term)
  }

  /** One ballot per node and term, and the stored vote is the ballot. */
  ghost predicate Ballots(s: State)
    requires Known(s)
  {
    && (forall t, n :: (t, n) in s.ballot && n in s.nodes ==>
          t <= s.at[n].term && (t == s.at[n].term ==> s.at[n].vote == s.ballot[(t, n)]))
    && (forall n :: n in s.nodes && s.at[n].vote != NO_VOTE ==> (s.at[n].term, n) in s.ballot)
    && (forall t :: t in s.elected ==> Quorum(s.nodes, Voters(s, t, s.elected[t])))
  }

  /** While a node stays in a leader's term it holds all it acknowledged. */
  ghost predicate Acks(s: State)
    requires Known(s)
  {
    forall t, n :: (t, n) in s.ack && n in s.nodes && t in s.lead && s.ack[(t, n)] <= |s.lead[t]| ==>
      && t <= s.at[n].term
      && (t == s.at[n].term ==> s.lead[t][..s.ack[(t, n)]] <= s.at[n].hist)
  }

  /** An acknowledged prefix that can still be chosen is never dropped. */
  ghost predicate Kept(s: State)
    requires Known(s)
  {
    forall t: nat, n, k: nat :: n in s.nodes && Acked(s, t, n, k) && Choosable(s, t, k) ==> s.lead[t][..k] <= s.at[n].hist
  }

  /** Whoever a node voted for in a later term holds such a prefix too. */
  ghost predicate VotesSafe(s: State)
    requires Known(s)
  {
    forall t: nat, n, k: nat, u: nat ::
      (t < u && (u, n) in s.ballot && (u, s.ballot[(u, n)]) in s.stood && Acked(s, t, n, k) && Choosable(s, t, k)) ==>
      s.lead[t][..k] <= s.stood[(u, s.ballot[(u, n)])]
  }

  /** Leader completeness. */
  ghost predicate Complete(s: State)
    requires Known(s)
  {
    forall t: nat, k: nat, u: nat :: t < u && u in s.lead && Choosable(s, t, k) ==> s.lead[t][..k] <= s.lead[u]
  }

  ghost predicate Commits(s: State)
    requires Known(s)
  {
    && (forall n :: n in s.nodes ==>
          && s.at[n].commit <= |s.at[n].hist|
          && s.at[n].hist[..s.at[n].commit] <= s.done
          && Certified(s, s.at[n].hist[..s.at[n].commit], s.at[n].term))
    && exists bound :: Certified(s, s.done, bound)
  }

  ghost predicate Inv(s: State) {
    && Known(s) && Shape(s) && Terms(s) && Anchors(s) && Roles(s) && Ballots(s)
    && Acks(s) && Kept(s) && VotesSafe(s) && Complete(s) && Commits(s)
  }

  /** s' only adds facts to s. */
  ghost predicate Grows(s: State, s': State) {
    && s'.nodes == s.nodes && s'.limit == s.limit
    && s.lead.Keys <= s'.lead.Keys && (forall t :: t in s.lead ==> s.lead[t] <= s'.lead[t])
    && s.elected.Keys <= s'.elected.Keys && (forall t :: t in s.elected ==> s'.elected[t] == s.elected[t])
    && s.stood.Keys <= s'.stood.Keys && (forall x :: x in s.stood ==> s'.stood[x] == s.stood[x])
    && s.ballot.Keys <= s'.ballot.Keys && (forall x :: x in s.ballot ==> s'.ballot[x] == s.ballot[x])
    && s.ack.Keys <= s'.ack.Keys && (forall x :: x in s.ack ==> s.ack[x] <= s'.ack[x])
    && s.done <= s'.done
  }
}
