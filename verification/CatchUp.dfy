/** One leader driving one follower with every message delivered: exactly when
    the exchange ends with equal logs, and that it then ends within a stated
    number of rounds with at most one snapshot. */
module CatchUp {
  import opened Entries
  import opened KvStore
  import opened Disk
  import opened Node
  import opened Relation
  import opened Elections
  import opened Replication
  import opened Snapshots
  import opened Cluster
  import opened Refinement
  import opened Safety
  import opened Progress
  import opened Cursors
  import opened RaftNode
  import P = Protocol
  import S = ProtocolSteps

  /** Again retries, Done ends with an accepted AppendEntries, Halt gives up. */
  datatype Round = Again(l: Node, f: Node) | Done(l: Node, f: Node) | Halt(l: Node, f: Node)

  function AppendRound(l: Node, f: Node): Round {
    var p := f.cfg.id;
    match BuildAppend(l, p)
    case None => Halt(l, f)
    case Some(r) =>
      var o := HandleAppend(f, r);
      var a := HandleAppendResp(l, p, r, o.reply);
      if a.reply then Again(a.node, o.node)
      else if o.reply.success then Done(a.node, o.node)
      else Halt(a.node, o.node)
  }

  function InstallRound(l: Node, f: Node): Round {
    var p := f.cfg.id;
    match BuildInstall(l, p, l.disk.snap)
    case None => Halt(l, f)
    case Some(r) =>
      var o := HandleInstall(f, r);
      if o.reply.None? then Halt(l, o.node) else
      var a := HandleInstallResp(l, p, r, o.reply.value);
      if a.reply then Again(a.node, o.node) else Halt(a.node, o.node)
  }

  predicate NeedsSnapshot(l: Node, f: Node) {
    f.cfg.id in l.next && l.next[f.cfg.id] <= l.meta.index
  }

  /** One pass of the replication loop. */
  function Step(l: Node, f: Node): Round {
    if NeedsSnapshot(l, f) then InstallRound(l, f) else AppendRound(l, f)
  }

  function Rounds(l: Node, f: Node, k: nat): Round
    decreases k
  {
    if k == 0 then Again(l, f)
    else match Step(l, f)
      case Again(l', f') => Rounds(l', f', k - 1)
      case Done(l', f') => Done(l', f')
      case Halt(l', f') => Halt(l', f')
  }

  /** How many of the first k rounds send a snapshot. */
  function SnapshotsSent(l: Node, f: Node, k: nat): nat
    decreases k
  {
    if k == 0 then 0
    else
      var later := match Step(l, f)
        case Again(l', f') => SnapshotsSent(l', f', k - 1)
        case Done(_, _) => 0
        case Halt(_, _) => 0;
      if NeedsSnapshot(l, f) then 1 + later else later
  }

  /** The same last index, and agreement at every index both still hold. */
  predicate Level(l: Node, f: Node) {
    LastIndex(f) == LastIndex(l) && SameThrough(l, f, LastIndex(l))
  }

  /** Level, and the leader counts the follower for all of it. */
  predicate CaughtUp(l: Node, f: Node) {
    Level(l, f) && At(l.match_, f.cfg.id) == LastIndex(l)
  }

  /** A leader and a node of no later term, neither taking a snapshot. */
  predicate AtRest(l: Node, f: Node) {
    l.role == Leader && f.term <= l.term && NoSnapshotRunning(l) && NoSnapshotRunning(f)
  }

  predicate Paired(l: Node, f: Node) {
    AtRest(l, f) && f.cfg.id in l.next && 1 <= l.next[f.cfg.id] <= LastIndex(l) + 1
  }

  /** The cursor is past the follower's boundary, or the leader's snapshot covers it. */
  predicate Reachable(l: Node, f: Node) {
    f.meta.index < At(l.next, f.cfg.id) || f.meta.index <= l.meta.index
  }

  lemma RoundsStep(l: Node, f: Node, k: nat)
    requires k > 0
    ensures Rounds(l, f, k) == (if Step(l, f).Again? then Rounds(Step(l, f).l, Step(l, f).f, k - 1) else Step(l, f))
    ensures SnapshotsSent(l, f, k) ==
      (if NeedsSnapshot(l, f) then 1 else 0) + (if Step(l, f).Again? then SnapshotsSent(Step(l, f).l, Step(l, f).f, k - 1) else 0)
  {
    hide Step;
  }

  // ---------------------------------------------------------- stuck forever

  /** Only its term, vote, role, known leader and their saved copy changed. */
  predicate Untouched(f: Node, f': Node) {
    && f'.cfg == f.cfg && f'.log == f.log && f'.meta == f.meta && f'.commit == f.commit && f'.applied == f.applied
    && f'.store == f.store && f'.phase == f.phase
  }

  lemma Rejects(f: Node, r: AppendReq)
    requires f.term <= r.term && f.applied <= f.commit && !MatchesPrefix(f, r.prevIndex, r.prevTerm)
    ensures var o := HandleAppend(f, r); o.reply == AppendResp(r.term, false) && Untouched(f, o.node) && o.node.term == r.term
  {
    hide PlanFrom, Perform, CutTo, AddAll, CommitUpTo;
  }

  predicate StuckPair(l: Node, f: Node) {
    && Paired(l, f) && !Reachable(l, f) && LastIndex(l) >= l.meta.index
    && f.meta.index <= f.applied <= f.commit
  }

  lemma StuckAppend(l: Node, f: Node)
    requires StuckPair(l, f) && !NeedsSnapshot(l, f)
    ensures var r := AppendRound(l, f);
      !r.Done? && Untouched(f, r.f) && r.l.log == l.log && r.l.meta == l.meta && (r.Again? ==> StuckPair(r.l, r.f))
  {
    hide EntriesFrom, LastIndexFor, AdvanceCommit, HandleAppend;
    var p := f.cfg.id;
    if BuildAppend(l, p).Some? {
      var r := BuildAppend(l, p).value;
      assert TermAt(f, r.prevIndex).None?;
      Rejects(f, r);
    }
  }

  /** A node that has applied the snapshot's prefix does not install it. */
  lemma Ignores(f: Node, r: InstallReq)
    requires f.term <= r.term && f.applied <= f.commit && r.index <= f.applied
    ensures var o := HandleInstall(f, r); Untouched(f, o.node) && o.node.term == r.term && (o.reply.Some? ==> o.reply.value.term == r.term)
  {
    hide KeptSuffix, FinishInstall, PerformAll, Perform;
  }

  lemma StuckInstall(l: Node, f: Node)
    requires StuckPair(l, f) && NeedsSnapshot(l, f)
    ensures var r := InstallRound(l, f);
      !r.Done? && Untouched(f, r.f) && r.l.log == l.log && r.l.meta == l.meta && (r.Again? ==> StuckPair(r.l, r.f))
  {
    hide HandleInstall, LastIndexFor;
    var p := f.cfg.id;
    if BuildInstall(l, p, l.disk.snap).Some? { Ignores(f, BuildInstall(l, p, l.disk.snap).value); }
  }

  /** A follower that has compacted past both the cursor and the leader's
      snapshot is never accepted: every round leaves both logs as they were. */
  lemma {:induction false} Stuck(l: Node, f: Node, k: nat)
    requires StuckPair(l, f)
    ensures var r := Rounds(l, f, k); !r.Done? && Untouched(f, r.f) && r.l.log == l.log && r.l.meta == l.meta
    decreases k
  {
    hide Rounds, SnapshotsSent, StuckPair, AppendRound, InstallRound;
    if k > 0 {
      if NeedsSnapshot(l, f) { StuckInstall(l, f); } else { StuckAppend(l, f); }
      RoundsStep(l, f, k);
      var r := Step(l, f);
      if r.Again? { Stuck(r.l, r.f, k - 1); }
    } else {
      NoRounds(l, f);
    }
  }

  /** So the two are level after any number of rounds only if they were before. */
  lemma StuckLevel(l: Node, f: Node, k: nat)
    requires StuckPair(l, f)
    ensures Level(Rounds(l, f, k).l, Rounds(l, f, k).f) <==> Level(l, f)
  {
    hide Rounds, StuckPair, SameThrough;
    Stuck(l, f, k);
    SameLogs(l, f, Rounds(l, f, k).l, Rounds(l, f, k).f);
  }

  lemma SameLogs(l: Node, f: Node, l': Node, f': Node)
    requires l'.log == l.log && l'.meta == l.meta && f'.log == f.log && f'.meta == f.meta
    ensures LastIndex(l') == LastIndex(l) && LastIndex(f') == LastIndex(f)
    ensures SameThrough(l', f', LastIndex(l)) <==> SameThrough(l, f, LastIndex(l))
  {
    assert forall y :: EntryAt(l', y) == EntryAt(l, y) && TermAt(l', y) == TermAt(l, y);
    assert forall y :: EntryAt(f', y) == EntryAt(f, y) && TermAt(f', y) == TermAt(f, y);
    hide EntryAt, TermAt;
  }

  lemma NoRounds(l: Node, f: Node)
    ensures Rounds(l, f, 0) == Again(l, f) && SnapshotsSent(l, f, 0) == 0
  {
  }

  // ------------------------------------------------------------ catching up

  /** A node in its leader's term that holds all of the leader's log holds
      nothing more: later entries would be the leader's own. */
  lemma NoLonger(s: P.State, b: int)
    requires P.Inv(s) && b in s.at && s.at[b].term in s.lead && s.lead[s.at[b].term] <= s.at[b].hist
    ensures s.at[b].hist == s.lead[s.at[b].term]
  {
    hide P.Roles, P.Ballots, P.Acks, P.Kept, P.VotesSafe, P.Complete, P.Commits, Indexed, AllFit;
    var t, h := s.at[b].term, s.at[b].hist;
    var l := s.lead[t];
    if |h| > |l| {
      assert P.Anchored(s, h) && P.Below(h, t);
      S.TermsRise(s, h, |l| - 1, |l|);
      assert false;
    }
  }

  /** A follower's boundary entry is committed, so its leader holds it. */
  lemma BoundaryMatches(f: Node, b: int, s: P.State, r: AppendReq)
    requires P.Inv(s) && NodeRel(f, b, s) && AppendReqRel(r, s) && f.term <= r.term && r.prevIndex == f.meta.index
    ensures MatchesPrefix(f, r.prevIndex, r.prevTerm)
  {
    hide P.Inv, P.Certified, P.Anchored, P.Complete, RoleRel, Mirror, PhaseRel, CfgRel;
    MemberHistory(s, b);
    LeadLog(s, r.term);
    var m := s.at[b];
    S.CertifiedInLead(s, m.hist[..m.commit], m.term, r.term);
    TermInPrefix(m.hist[..m.commit], s.lead[r.term], f.meta.index);
  }

  /** What a follower does with a request of a leader that is not behind. */
  lemma Delivered(f: Node, b: int, s: P.State, r: AppendReq) returns (s': P.State)
    requires P.Inv(s) && NodeRel(f, b, s) && AppendReqRel(r, s) && f.term <= r.term
    ensures var o := HandleAppend(f, r);
      && Moves(s, s', b) && NodeRel(o.node, b, s') && AppendRespRel(b, r, o.reply, s')
      && o.reply == AppendResp(r.term, MatchesPrefix(f, r.prevIndex, r.prevTerm)) && o.node.term == r.term
      && (!o.reply.success ==> Untouched(f, o.node))
  {
    hide P.Inv, NodeRel, AppendReqRel, AppendInTerm, HandleAppend, MatchesPrefix;
    s' := NewTermAppend(f, b, s, r);
    NodeBasics(f, b, s);
    if MatchesPrefix(f, r.prevIndex, r.prevTerm) {
      Accepts(f, b, s, r);
    } else {
      Rejects(f, r);
    }
  }

  lemma Accepts(f: Node, b: int, s: P.State, r: AppendReq)
    requires P.Inv(s) && NodeRel(f, b, s) && AppendReqRel(r, s) && f.term <= r.term
    requires MatchesPrefix(f, r.prevIndex, r.prevTerm)
    ensures HandleAppend(f, r).reply == AppendResp(r.term, true) && HandleAppend(f, r).node.term == r.term
  {
    hide P.Inv, NodeRel, AppendReqRel, AppendInTerm, BecomeFollower, MatchesPrefix;
    var n, s1 := f, s;
    if r.term > f.term {
      s1 := FollowNewTerm(f, b, s, r.term, r.leader);
      n := BecomeFollower(f, r.term, r.leader).node;
      AppendReqGrows(r, s, s1);
      BumpFree(f, r);
    }
    AcceptedInTerm(n, b, s1, r);
    AppendKeepsTerm(n, r);
  }

  /** The follower holds the leader's boundary entry, by term. */
  predicate Synced(l: Node, f: Node) {
    MatchesPrefix(f, l.meta.index, l.meta.term)
  }

  ghost predicate Linked(l: Node, f: Node, a: int, b: int, s: P.State) {
    P.Inv(s) && NodeRel(l, a, s) && NodeRel(f, b, s) && a != b && f.cfg.id == b && Paired(l, f) && Reachable(l, f)
  }

  lemma LeaderRequest(l: Node, f: Node, a: int, b: int, s: P.State)
    requires Linked(l, f, a, b, s) && !NeedsSnapshot(l, f)
    ensures var r := BuildAppend(l, b);
      && r.Some? && AppendReqRel(r.value, s) && r.value.term == l.term && r.value.prevIndex == l.next[b] - 1
      && r.value.prevIndex + |r.value.entries| == LastIndex(l)
      && (r.value.prevIndex == l.meta.index ==> r.value.prevTerm == l.meta.term)
  {
    hide P.Inv, PhaseRel, CfgRel, Mirror, RoleRel, TermAt, EntriesFrom, LastIndex, P.Certified, P.Below, P.Anchored, AllFit, AppendReqRel;
    BuiltAppend(l, a, s, b);
    MemberHistory(s, a);
    var h := s.at[a].hist;
    LastIs(l, h);
    TermIs(l, h, l.next[b] - 1);
    EntriesAre(l, h, l.next[b]);
  }

  /** Equal histories make a caught-up pair. */
  lemma EqualPair(l: Node, f: Node, a: int, b: int, s: P.State)
    requires P.Inv(s) && NodeRel(l, a, s) && NodeRel(f, b, s) && l.role == Leader && f.term == l.term
    requires P.Acked(s, l.term, b, LastIndex(l))
    ensures LastIndex(f) == LastIndex(l) && SameThrough(l, f, LastIndex(l))
  {
    hide P.Inv, PhaseRel, CfgRel, Mirror, RoleRel, LastIndex, P.Certified, P.Below, P.Anchored, AllFit, SameThrough;
    MemberHistory(s, a);
    MemberHistory(s, b);
    LeaderLog(s, a);
    LastIs(l, s.at[a].hist);
    LastIs(f, s.at[b].hist);
    AckHeld(s, l.term, b, LastIndex(l));
    assert s.lead[l.term][..LastIndex(l)] == s.lead[l.term];
    NoLonger(s, b);
    HistoriesSame(l, f, s.at[a].hist, s.at[b].hist, LastIndex(l));
  }

  /** The part of the leader a round does not touch. */
  predicate SameLeader(l: Node, l': Node) {
    && l'.cfg == l.cfg && l'.role == l.role && l'.term == l.term && l'.log == l.log && l'.meta == l.meta
    && l'.phase == l.phase && l'.disk.snap == l.disk.snap
  }

  lemma Counted(l: Node, b: int, r: AppendReq)
    requires l.role == Leader && r.term == l.term && r.prevIndex + |r.entries| == LastIndex(l)
    requires At(l.match_, b) <= LastIndex(l) && l.applied <= l.commit && NO_VOTE <= l.votedFor
    ensures var o := HandleAppendResp(l, b, r, AppendResp(l.term, true));
      !o.reply && SameLeader(l, o.node) && At(o.node.match_, b) == LastIndex(l)
  {
    hide CommitPoint, LastIndexFor;
  }

  /** A round that sends AppendEntries either catches the follower up or steps
      the cursor back to a place the follower can still answer for. */
  lemma AppendRoundGoes(l: Node, f: Node, a: int, b: int, s: P.State) returns (s': P.State)
    requires Linked(l, f, a, b, s) && !NeedsSnapshot(l, f)
    ensures var r := AppendRound(l, f);
      && !r.Halt? && SameLeader(l, r.l)
      && (r.Done? ==> CaughtUp(r.l, r.f))
      && (r.Again? ==>
            && Linked(r.l, r.f, a, b, s') && Untouched(f, r.f)
            && r.l.next[b] == l.next[b] - 1 && (Synced(l, f) ==> r.l.next[b] > l.meta.index))
  {
    hide P.Inv, NodeRel, AppendReqRel, HandleAppend, MatchesPrefix, BuildAppend, LastIndex, HandleAppendResp, SameThrough;
    NodeBasics(l, a, s);
    NodeBasics(f, b, s);
    LeaderRequest(l, f, a, b, s);
    var r := BuildAppend(l, b).value;
    var s1 := Delivered(f, b, s, r);
    var o := HandleAppend(f, r);
    NodeRelGrows(l, a, s, s1);
    s' := AppendAnswered(l, a, s1, b, r, o.reply);
    NodeRelGrows(o.node, b, s1, s');
    var l' := HandleAppendResp(l, b, r, o.reply).node;
    if o.reply.success {
      MatchInLog(l, a, s, b);
      Counted(l, b, r);
      AckedGrows(s1, s', l.term, b, LastIndex(l));
      SameReach(l, l');
      EqualPair(l', o.node, a, b, s');
      LimitIs(o.node, b, s');
    } else {
      if r.prevIndex == f.meta.index { BoundaryMatches(f, b, s, r); assert false; }
      SteppedBack(l, b, r);
      SameReach(l, l');
    }
  }

  lemma AckedGrows(s: P.State, s': P.State, t: nat, b: int, k: nat)
    requires P.Acked(s, t, b, k) && P.Grows(s, s')
    ensures P.Acked(s', t, b, k)
  {
  }

  lemma SameReach(l: Node, l': Node)
    requires SameLeader(l, l')
    ensures LastIndex(l') == LastIndex(l)
  {
  }

  lemma SteppedBack(l: Node, b: int, r: AppendReq)
    requires l.role == Leader && r.term == l.term && b in l.next && l.next[b] > 1
    ensures HandleAppendResp(l, b, r, AppendResp(l.term, false)) == Outcome(l.(next := l.next[b := l.next[b] - 1]), [], true)
  {
  }

  lemma SnapshotRequest(l: Node, f: Node, a: int, b: int, s: P.State)
    requires Linked(l, f, a, b, s) && NeedsSnapshot(l, f)
    ensures var r := BuildInstall(l, b, l.disk.snap);
      && r.Some? && InstallReqRel(r.value, s)
      && r.value.term == l.term && r.value.index == l.meta.index && r.value.lastTerm == l.meta.term
  {
    hide P.Inv, PhaseRel, CfgRel, RoleRel, InstallReqRel, SnapRel, LastIndex, SuffixOf;
    if l.disk.snap.Some? { BuiltInstall(l, a, s, b, l.disk.snap.value); }
  }

  /** What a follower does with a snapshot of a leader that is not behind. */
  lemma Installed(f: Node, b: int, s: P.State, r: InstallReq) returns (s': P.State)
    requires P.Inv(s) && NodeRel(f, b, s) && InstallReqRel(r, s) && f.term <= r.term && NoSnapshotRunning(f)
    ensures var o := HandleInstall(f, r);
      && Moves(s, s', b) && NodeRel(o.node, b, s') && o.reply == Some(InstallResp(r.term))
      && P.Acked(s', r.term, b, r.index) && o.node.term == r.term && o.node.cfg == f.cfg && o.node.phase == f.phase
      && o.node.meta.index == if r.index <= f.applied then f.meta.index else r.index
  {
    hide P.Inv, NodeRel, InstallReqRel, InstallInTerm, BecomeFollower;
    var n, s1 := f, s;
    BumpKeeps(f, r.term, r.leader);
    if r.term > f.term {
      s1 := FollowNewTerm(f, b, s, r.term, r.leader);
      n := BecomeFollower(f, r.term, r.leader).node;
      InstallReqGrows(r, s, s1);
    }
    s' := InstallHandled(n, b, s1, r);
    if r.term > f.term { MovesTwice(s, s1, s', b); }
    ImageOk(s1, r);
    InstallKeepsTerm(n, r);
  }

  lemma BumpKeeps(f: Node, t: nat, leader: int)
    ensures Untouched(f, BecomeFollower(f, t, leader).node)
  {
  }

  lemma Advanced(l: Node, b: int, r: InstallReq)
    requires l.role == Leader && r.term == l.term
    ensures HandleInstallResp(l, b, r, InstallResp(l.term)) ==
      Outcome(l.(match_ := l.match_[b := r.index], next := l.next[b := r.index + 1]), [], true)
  {
  }

  /** After a snapshot round the follower holds the leader's boundary, and the
      cursor stands just behind it. */
  lemma InstallRoundGoes(l: Node, f: Node, a: int, b: int, s: P.State) returns (s': P.State)
    requires Linked(l, f, a, b, s) && NeedsSnapshot(l, f)
    ensures var r := InstallRound(l, f);
      && r.Again? && SameLeader(l, r.l) && Linked(r.l, r.f, a, b, s')
      && r.l.next[b] == l.meta.index + 1 && Synced(r.l, r.f)
  {
    hide P.Inv, NodeRel, InstallReqRel, HandleInstall, MatchesPrefix, BuildInstall, LastIndex, HandleInstallResp;
    NodeBasics(l, a, s);
    NodeBasics(f, b, s);
    SnapshotRequest(l, f, a, b, s);
    var r := BuildInstall(l, b, l.disk.snap).value;
    var s1 := Installed(f, b, s, r);
    var o := HandleInstall(f, r);
    NodeRelGrows(l, a, s, s1);
    s' := InstallAnswered(l, a, s1, b, r, o.reply.value);
    NodeRelGrows(o.node, b, s1, s');
    Advanced(l, b, r);
    var l' := HandleInstallResp(l, b, r, o.reply.value).node;
    AckedGrows(s1, s', l.term, b, r.index);
    SameReach(l, l');
    BoundaryIn(l, a, s);
    HoldsBoundary(l', o.node, a, b, s');
  }

  lemma BoundaryIn(l: Node, a: int, s: P.State)
    requires P.Inv(s) && NodeRel(l, a, s)
    ensures l.meta.index <= LastIndex(l)
  {
    hide P.Inv, PhaseRel, CfgRel, Mirror, RoleRel, LastIndex, P.Certified, P.Below, P.Anchored, AllFit;
    MemberHistory(s, a);
    LastIs(l, s.at[a].hist);
  }

  lemma HoldsBoundary(l: Node, f: Node, a: int, b: int, s: P.State)
    requires P.Inv(s) && NodeRel(l, a, s) && NodeRel(f, b, s) && l.role == Leader && f.term == l.term
    requires P.Acked(s, l.term, b, l.meta.index) && f.meta.index <= l.meta.index
    ensures Synced(l, f)
  {
    hide P.Inv, PhaseRel, CfgRel, Mirror, RoleRel, TermAt, P.Certified, P.Below, P.Anchored, AllFit;
    MemberHistory(s, a);
    MemberHistory(s, b);
    LeaderLog(s, a);
    AckHeld(s, l.term, b, l.meta.index);
    var h, k := s.at[b].hist, l.meta.index;
    TermIs(f, h, k);
    TermInPrefix(s.lead[l.term][..k], h, k);
    TermInPrefix(s.lead[l.term][..k], s.lead[l.term], k);
  }

  /** A bound on the rounds still needed. */
  function RoundsLeft(l: Node, f: Node): nat
    requires f.cfg.id in l.next
  {
    var next := l.next[f.cfg.id];
    if next <= l.meta.index then 2 else next - l.meta.index + if Synced(l, f) then 0 else 2
  }

  lemma {:induction false} CatchesUp(l: Node, f: Node, a: int, b: int, s: P.State) returns (k: nat)
    requires Linked(l, f, a, b, s)
    ensures k <= RoundsLeft(l, f) && Rounds(l, f, k).Done? && CaughtUp(Rounds(l, f, k).l, Rounds(l, f, k).f)
    ensures SnapshotsSent(l, f, k) <= 1 && (!NeedsSnapshot(l, f) && Synced(l, f) ==> SnapshotsSent(l, f, k) == 0)
    decreases RoundsLeft(l, f)
  {
    hide P.Inv, NodeRel, AppendRound, InstallRound, Rounds, SnapshotsSent, MatchesPrefix, LastIndex, SameThrough;
    if NeedsSnapshot(l, f) {
      var s' := InstallRoundGoes(l, f, a, b, s);
      var r := Step(l, f);
      var k' := CatchesUp(r.l, r.f, a, b, s');
      k := k' + 1;
      RoundsStep(l, f, k);
    } else {
      var s' := AppendRoundGoes(l, f, a, b, s);
      var r := Step(l, f);
      if r.Done? {
        k := 1;
        RoundsStep(l, f, k);
      } else {
        SyncedSame(l, f, r.l, r.f);
        var k' := CatchesUp(r.l, r.f, a, b, s');
        k := k' + 1;
        RoundsStep(l, f, k);
      }
    }
  }

  lemma SyncedSame(l: Node, f: Node, l': Node, f': Node)
    requires l'.meta == l.meta && Untouched(f, f')
    ensures Synced(l', f') == Synced(l, f)
  {
  }

  /** A finished exchange stays finished. */
  lemma {:induction false} NoMore(l: Node, f: Node, k: nat, m: nat)
    requires k <= m && !Rounds(l, f, k).Again?
    ensures Rounds(l, f, m) == Rounds(l, f, k) && SnapshotsSent(l, f, m) == SnapshotsSent(l, f, k)
    decreases k
  {
    hide Rounds, SnapshotsSent, Step;
    NoRounds(l, f);
    if k > 0 {
      RoundsStep(l, f, k);
      RoundsStep(l, f, m);
      if Step(l, f).Again? { NoMore(Step(l, f).l, Step(l, f).f, k - 1, m - 1); }
    }
  }

  // ------------------------------------------------------------- theorems

  /** Two running nodes of a run, the first leading. */
  lemma PairUp(run: seq<Cluster>, events: seq<Event>, limit: nat, i: nat, a: int, b: int) returns (s: P.State)
    requires IsRun(run, events, limit) && i < |run| && a in run[i].procs && b in run[i].procs && a != b
    requires run[i].procs[a].Up? && run[i].procs[b].Up? && AtRest(run[i].procs[a].node, run[i].procs[b].node)
    ensures var l, f := run[i].procs[a].node, run[i].procs[b].node;
      && P.Inv(s) && NodeRel(l, a, s) && NodeRel(f, b, s) && Paired(l, f) && f.cfg.id == b
      && l.meta.index <= LastIndex(l) && f.meta.index <= f.applied <= f.commit
  {
    hide IsRun, P.Inv, NetRel, Init, DiskRel, LastIndex, SuffixOf, PhaseRel, Mirror, RoleRel;
    s := Reached(run, events, limit, i, a);
    var l, f := run[i].procs[a].node, run[i].procs[b].node;
    assert ProcRel(run[i].procs[a], a, s) && ProcRel(run[i].procs[b], b, s);
    CursorsInRange(run, events, limit, i);
    assert s.at.Keys == s.nodes by { MemberHistory(s, a); }
    PeerIsNode(l.cfg, a, s, b);
    BoundaryIn(l, a, s);
  }

  /** From any reachable state, with all messages delivered, the loop ends in
      an accepted request if and only if the cursor is past the follower's
      snapshot boundary or the leader's snapshot covers it; the two logs are
      then level after no more rounds than the leader's log has entries, plus
      three, and at most one snapshot. Otherwise neither log ever changes, so
      the two ever become level if and only if they are reachable in this sense
      or level already. */
  lemma CatchUpIff(run: seq<Cluster>, events: seq<Event>, limit: nat, i: nat, a: int, b: int)
    requires IsRun(run, events, limit) && i < |run| && a in run[i].procs && b in run[i].procs && a != b
    requires run[i].procs[a].Up? && run[i].procs[b].Up? && AtRest(run[i].procs[a].node, run[i].procs[b].node)
    ensures var l, f := run[i].procs[a].node, run[i].procs[b].node;
      && (Reachable(l, f) <==> exists k: nat :: Rounds(l, f, k).Done?)
      && (Reachable(l, f) ==> forall k: nat :: k >= LastIndex(l) - l.meta.index + 3 ==>
            Rounds(l, f, k).Done? && CaughtUp(Rounds(l, f, k).l, Rounds(l, f, k).f) && SnapshotsSent(l, f, k) <= 1)
      && (!Reachable(l, f) ==> forall k: nat :: Rounds(l, f, k).f.log == f.log && Rounds(l, f, k).l.log == l.log)
      && (Reachable(l, f) || Level(l, f) <==> exists k: nat :: Level(Rounds(l, f, k).l, Rounds(l, f, k).f))
  {
    hide IsRun, P.Inv, NodeRel, Rounds, SnapshotsSent, Level, LastIndex, Synced;
    var s := PairUp(run, events, limit, i, a, b);
    var l, f := run[i].procs[a].node, run[i].procs[b].node;
    if Reachable(l, f) {
      var k := CatchesUp(l, f, a, b, s);
      assert Level(Rounds(l, f, k).l, Rounds(l, f, k).f);
      forall m: nat | m >= LastIndex(l) - l.meta.index + 3
        ensures Rounds(l, f, m) == Rounds(l, f, k) && SnapshotsSent(l, f, m) == SnapshotsSent(l, f, k)
      {
        NoMore(l, f, k, m);
      }
    } else {
      forall k: nat
        ensures !Rounds(l, f, k).Done? && Rounds(l, f, k).f.log == f.log && Rounds(l, f, k).l.log == l.log
        ensures Level(Rounds(l, f, k).l, Rounds(l, f, k).f) <==> Level(l, f)
      {
        Stuck(l, f, k);
        StuckLevel(l, f, k);
      }
      NoRounds(l, f);
      assert Level(l, f) ==> Level(Rounds(l, f, 0).l, Rounds(l, f, 0).f);
    }
  }

  /** A node without an entry of the leader's term committed less than any such entry. */
  lemma CommitsBefore(l: Node, f: Node, a: int, b: int, s: P.State, x: nat)
    requires P.Inv(s) && NodeRel(l, a, s) && NodeRel(f, b, s) && l.role == Leader && f.term <= l.term
    requires LastTermOf(f) < l.term && 0 < x <= |s.at[a].hist| && TermIn(s.at[a].hist, x) == l.term
    ensures f.commit < x
  {
    hide P.Inv, PhaseRel, CfgRel, Mirror, RoleRel, LastTermOf, P.Certified, P.Anchored, AllFit;
    MemberHistory(s, b);
    LeaderLog(s, a);
    LeadLog(s, l.term);
    var h, m := s.at[b].hist, s.at[b];
    LastIs(f, h);
    S.CertifiedInLead(s, h[..m.commit], m.term, l.term);
    if x <= m.commit {
      assert h[x - 1] == h[..m.commit][x - 1] == s.lead[l.term][x - 1];
      LeadTerms(s);
      S.TermsRise(s, h, x - 1, |h| - 1);
      assert false;
    }
  }

  /** The cursors an election sets reach every follower that holds nothing of
      the new term, whatever the leader has appended since, until the follower
      answers; and a cursor past the leader's last entry reaches everyone. */
  lemma ElectedCursorReaches(run: seq<Cluster>, events: seq<Event>, limit: nat, i: nat, a: int, b: int)
    requires IsRun(run, events, limit) && i < |run| && a in run[i].procs && b in run[i].procs && a != b
    requires run[i].procs[a].Up? && run[i].procs[b].Up?
    requires run[i].procs[a].node.role == Leader && run[i].procs[b].node.term <= run[i].procs[a].node.term
    requires var l, f := run[i].procs[a].node, run[i].procs[b].node;
      At(l.next, b) == LastIndex(l) + 1 || (Unanswered(run[i].net, b, l.term) && LastTermOf(f) < l.term)
    ensures Reachable(run[i].procs[a].node, run[i].procs[b].node)
  {
    hide IsRun, P.Inv, NodeRel, LastIndex, SameThrough, LastTermOf, Rel, Unanswered;
    var s := UnmovedCursors(run, events, limit, i);
    var l, f := run[i].procs[a].node, run[i].procs[b].node;
    UpNode(run[i], s, a);
    UpNode(run[i], s, b);
    CursorOf(run, events, limit, i, s, a, b);
    Ordered(run[i], s, b);
    if At(l.next, b) == LastIndex(l) + 1 {
      LeaderCompleteness(run, events, limit, i, i, b, a);
    } else {
      assert Unmoved(l, a, run[i].net, s);
      CommitsBefore(l, f, a, b, s, l.next[b] - 1);
    }
  }

  /** A leader has a cursor for every other node. */
  lemma CursorOf(run: seq<Cluster>, events: seq<Event>, limit: nat, i: nat, s: P.State, a: int, b: int)
    requires IsRun(run, events, limit) && i < |run| && Rel(run[i], s) && a in run[i].procs && b in run[i].procs && a != b
    requires run[i].procs[a].Up? && run[i].procs[b].Up? && run[i].procs[a].node.role == Leader
    ensures b in run[i].procs[a].node.next && run[i].procs[b].node.cfg.id == b && a in s.at
  {
    hide IsRun, P.Inv, NetRel, DiskRel, LastIndex, MemberRel, PhaseRel, Mirror, RoleRel;
    assert ProcRel(run[i].procs[a], a, s) && ProcRel(run[i].procs[b], b, s);
    CursorsInRange(run, events, limit, i);
    assert s.at.Keys == s.nodes by { MemberHistory(s, a); }
    PeerIsNode(run[i].procs[a].node.cfg, a, s, b);
  }

  /** A leader reaches every node that is still in an earlier term, wherever
      its cursors are: catch-up of such a node always ends. */
  lemma LaterTermReaches(run: seq<Cluster>, events: seq<Event>, limit: nat, i: nat, a: int, b: int)
    requires IsRun(run, events, limit) && i < |run| && a in run[i].procs && b in run[i].procs
    requires run[i].procs[a].Up? && run[i].procs[b].Up?
    requires run[i].procs[a].node.role == Leader && run[i].procs[b].node.term < run[i].procs[a].node.term
    ensures Reachable(run[i].procs[a].node, run[i].procs[b].node)
  {
    hide IsRun, P.Inv, NodeRel, LastIndex, SameThrough, LastTermOf, Rel, AllUnmoved;
    var s := UnmovedCursors(run, events, limit, i);
    var l, f := run[i].procs[a].node, run[i].procs[b].node;
    UpNode(run[i], s, b);
    NodeBasics(f, b, s);
    LastTermBelow(f, b, s);
    assert Unanswered(run[i].net, b, l.term);
    ElectedCursorReaches(run, events, limit, i, a, b);
  }

  lemma LastTermBelow(f: Node, b: int, s: P.State)
    requires P.Inv(s) && NodeRel(f, b, s)
    ensures LastTermOf(f) <= f.term
  {
    hide P.Inv, PhaseRel, CfgRel, Mirror, RoleRel, LastTermOf, P.Certified, P.Anchored, AllFit;
    MemberHistory(s, b);
    LastIs(f, s.at[b].hist);
  }

  /** A leader whose follower is in a later term learns of it in its first
      round and steps down; the follower is left as it was. */
  lemma StaleLeaderHalts(run: seq<Cluster>, events: seq<Event>, limit: nat, i: nat, a: int, b: int, k: nat)
    requires IsRun(run, events, limit) && i < |run| && a in run[i].procs && b in run[i].procs && a != b && 0 < k
    requires run[i].procs[a].Up? && run[i].procs[b].Up? && run[i].procs[a].node.role == Leader && NoSnapshotRunning(run[i].procs[a].node)
    requires run[i].procs[a].node.term < run[i].procs[b].node.term
    ensures var l, f := run[i].procs[a].node, run[i].procs[b].node; var r := Rounds(l, f, k);
      r.Halt? && r.f == f && r.l.role == Follower && r.l.term == f.term && r.l.log == l.log && r.l.commit == l.commit
  {
    hide IsRun, P.Inv, NodeRel, Rel, LastIndex, AppendRound, InstallRound, Rounds;
    var s := UnmovedCursors(run, events, limit, i);
    var l, f := run[i].procs[a].node, run[i].procs[b].node;
    UpNode(run[i], s, a);
    CursorOf(run, events, limit, i, s, a, b);
    CursorsInRange(run, events, limit, i);
    NodeBasics(l, a, s);
    RoundsStep(l, f, k);
    if NeedsSnapshot(l, f) {
      HasSnapshot(l, a, s, b);
      StaleInstallHalts(l, f);
    } else {
      HasRequest(l, a, s, b);
      StaleAppendHalts(l, f);
    }
  }

  lemma HasRequest(l: Node, a: int, s: P.State, b: int)
    requires P.Inv(s) && NodeRel(l, a, s) && l.role == Leader && b in l.next && l.meta.index < l.next[b] <= LastIndex(l) + 1
    ensures BuildAppend(l, b).Some?
  {
    hide P.Inv, PhaseRel, CfgRel, Mirror, RoleRel, TermAt, EntriesFrom, LastIndex, P.Certified, P.Below, P.Anchored, AllFit, SuffixOf;
    MemberHistory(s, a);
    var h := s.at[a].hist;
    LastIs(l, h);
    TermIs(l, h, l.next[b] - 1);
    EntriesAre(l, h, l.next[b]);
  }

  lemma HasSnapshot(l: Node, a: int, s: P.State, b: int)
    requires NodeRel(l, a, s) && l.role == Leader && b in l.next && 1 <= l.next[b] <= l.meta.index && NoSnapshotRunning(l)
    ensures BuildInstall(l, b, l.disk.snap).Some?
  {
    hide PhaseRel, CfgRel, RoleRel, SnapRel, LastIndex, SuffixOf;
  }

  lemma StaleAppendHalts(l: Node, f: Node)
    requires l.role == Leader && l.term < f.term && BuildAppend(l, f.cfg.id).Some? && l.applied <= l.commit
    ensures var r := AppendRound(l, f); r.Halt? && r.f == f && r.l.role == Follower && r.l.term == f.term && r.l.log == l.log && r.l.commit == l.commit
  {
    hide AppendInTerm, LastIndexFor, TermAt, EntriesFrom, AdvanceCommit, Perform;
  }

  lemma StaleInstallHalts(l: Node, f: Node)
    requires l.role == Leader && l.term < f.term && BuildInstall(l, f.cfg.id, l.disk.snap).Some? && l.applied <= l.commit
    ensures var r := InstallRound(l, f); r.Halt? && r.f == f && r.l.role == Follower && r.l.term == f.term && r.l.log == l.log && r.l.commit == l.commit
  {
    hide InstallInTerm, Perform;
  }

  // ------------------------------------------------- the loop on two nodes

  /** Two separate nodes, each with its own store. */
  ghost predicate Apart(l: Raft, f: Raft) {
    l.Valid() && f.Valid() && l != f && l.kv != f.kv
  }

  method ExchangeAppend(l: Raft, f: Raft) returns (retry: bool, accepted: bool)
    requires Apart(l, f)
    modifies l, f
    ensures var r := AppendRound(old(l.View()), old(f.View()));
      l.View() == r.l && f.View() == r.f && retry == r.Again? && accepted == r.Done?
  {
    hide HandleAppend, HandleAppendResp, BuildAppend;
    retry, accepted := false, false;
    var req := l.BuildAppendEntries(f.cfg.id);
    if req.None? { return; }
    var resp := f.HandleAppendEntries(req.value);
    retry := l.HandleAppendEntriesResponse(f.cfg.id, req.value, resp);
    accepted := !retry && resp.success;
  }

  method ExchangeSnapshot(l: Raft, f: Raft) returns (retry: bool)
    requires Apart(l, f)
    modifies l, f, f.kv
    ensures var r := InstallRound(old(l.View()), old(f.View()));
      l.View() == r.l && f.View() == r.f && retry == r.Again? && !r.Done?
  {
    hide HandleInstall, HandleInstallResp;
    retry := false;
    var ticket := l.NeedsSnapshot(f.cfg.id);
    if ticket.None? { return; }
    var req := l.BuildInstallSnapshot(f.cfg.id, ticket.value, l.disk.snap);
    if req.None? { return; }
    var resp := f.HandleInstallSnapshot(req.value);
    if resp.None? { return; }
    retry := l.HandleInstallSnapshotResponse(f.cfg.id, req.value, resp.value);
  }

  /** The replication loop with every message delivered, for as many rounds as
      its deadline allows: what it leaves, from any two nodes. */
  method ReplicateToPeer(l: Raft, f: Raft, deadline: nat) returns (accepted: bool)
    requires Apart(l, f)
    modifies l, f, f.kv
    ensures var r := Rounds(old(l.View()), old(f.View()), deadline); l.View() == r.l && f.View() == r.f && accepted == r.Done?
  {
    hide AppendRound, InstallRound, Rounds;
    ghost var l0, f0 := l.View(), f.View();
    accepted := false;
    var left := deadline;
    NoRounds(l0, f0);
    while left > 0
      invariant Rounds(l0, f0, deadline) == Rounds(l.View(), f.View(), left) && !accepted
      decreases left
    {
      RoundsStep(l.View(), f.View(), left);
      var retry: bool;
      if f.cfg.id in l.nextIndex && l.nextIndex[f.cfg.id] <= l.snapshotMeta.index {
        retry := ExchangeSnapshot(l, f);
      } else {
        retry, accepted := ExchangeAppend(l, f);
      }
      if !retry { return; }
      left := left - 1;
    }
    NoRounds(l.View(), f.View());
  }
}
