/** Compaction is invisible to other nodes: how much of a history a node has
    compacted changes no vote, and no AppendEntries answer at or after its
    boundary. */
module Transparency {
  import opened Entries
  import opened Disk
  import opened Node
  import opened Relation
  import opened Replication

  /** Same protocol state and history h, possibly different boundaries. */
  ghost predicate Twins(a: Node, b: Node, h: Log) {
    && Indexed(h) && SuffixOf(a.log, a.meta, h) && SuffixOf(b.log, b.meta, h)
    && a.term == b.term && a.votedFor == b.votedFor && a.commit == b.commit && a.applied == b.applied
    && a.disk.log == a.log && b.disk.log == b.log
  }

  lemma SameFollowing(a: Node, b: Node, h: Log, term: nat, leader: int)
    requires Twins(a, b, h) && a.term < term
    ensures var x, y := BecomeFollower(a, term, leader), BecomeFollower(b, term, leader);
      x.reply == y.reply && x.writes == y.writes && (x.reply ==> Twins(x.node, y.node, h) && x.node.term == term)
      && (!x.reply ==> x.node == a && y.node == b) && x.node.meta == a.meta && y.node.meta == b.meta
  {
    hide Indexed, SuffixOf;
  }

  lemma SameVotesInTerm(a: Node, b: Node, h: Log, req: VoteReq)
    requires Twins(a, b, h)
    ensures VoteInTerm(a, req).reply == VoteInTerm(b, req).reply
    ensures VoteInTerm(a, req).writes == VoteInTerm(b, req).writes
    ensures Twins(VoteInTerm(a, req).node, VoteInTerm(b, req).node, h)
  {
    hide LastIndex, LastTermOf, Indexed, SuffixOf;
    LastIs(a, h);
    LastIs(b, h);
  }

  /** Every RequestVote is answered alike. */
  lemma SameVotes(a: Node, b: Node, h: Log, req: VoteReq)
    requires Twins(a, b, h)
    ensures HandleVote(a, req).reply == HandleVote(b, req).reply
    ensures HandleVote(a, req).writes == HandleVote(b, req).writes
    ensures Twins(HandleVote(a, req).node, HandleVote(b, req).node, h)
  {
    hide VoteInTerm, BecomeFollower, Indexed, SuffixOf;
    if req.term > a.term {
      SameFollowing(a, b, h, req.term, UNKNOWN_LEADER);
      var x := BecomeFollower(a, req.term, UNKNOWN_LEADER);
      if x.reply { SameVotesInTerm(x.node, BecomeFollower(b, req.term, UNKNOWN_LEADER).node, h, req); }
    } else {
      SameVotesInTerm(a, b, h, req);
    }
  }

  lemma SameLookup(a: Node, b: Node, h: Log, x: nat)
    requires Twins(a, b, h) && a.meta.index < x && b.meta.index < x
    ensures LastIndex(a) == LastIndex(b) && EntryAt(a, x) == EntryAt(b, x)
  {
    hide EntryAt, LastIndex, SuffixOf, Indexed, Offset, LastTermOf;
    LastIs(a, h);
    LastIs(b, h);
    EntryIs(a, h, x);
    EntryIs(b, h, x);
  }

  /** One pass of the plan, in terms of the last index and one lookup. */
  lemma PlanOnce(n: Node, prev: nat, entries: Log, i: nat)
    requires i < |entries|
    ensures PlanFrom(n, prev, entries, i) ==
      var e := entries[i];
      if !ValidEntry(e) || e.index != prev + i + 1 then Refuse
      else if prev + i + 1 > LastIndex(n) then (if prev + i == LastIndex(n) then Plan(0, entries[i..]) else Refuse)
      else match EntryAt(n, prev + i + 1)
        case None => Refuse
        case Some(mine) =>
          if mine == e then PlanFrom(n, prev, entries, i + 1)
          else if mine.term == e.term || prev + i + 1 <= n.commit then Refuse
          else Plan(prev + i + 1, entries[i..])
  {
    hide EntryAt, LastIndex, ValidEntry;
  }

  lemma {:induction false} SamePlan(a: Node, b: Node, h: Log, prev: nat, entries: Log, i: nat)
    requires Twins(a, b, h) && a.meta.index <= prev && b.meta.index <= prev && i <= |entries|
    ensures PlanFrom(a, prev, entries, i) == PlanFrom(b, prev, entries, i)
    decreases |entries| - i
  {
    if i < |entries| {
      hide PlanFrom, EntryAt, LastIndex, SuffixOf, Indexed, ValidEntry;
      PlanOnce(a, prev, entries, i);
      PlanOnce(b, prev, entries, i);
      SameLookup(a, b, h, prev + i + 1);
      SamePlan(a, b, h, prev, entries, i + 1);
    }
  }

  /** Where a plan can cut or append, whatever the sender put in the request. */
  lemma {:induction false} PlanSound(n: Node, h: Log, prev: nat, entries: Log, i: nat)
    requires Indexed(h) && SuffixOf(n.log, n.meta, h) && n.meta.index <= prev && i <= |entries|
    ensures var p := PlanFrom(n, prev, entries, i);
      p.Plan? ==>
        && (p.cut == 0 || (prev < p.cut <= |h| && n.commit < p.cut))
        && (p.add != [] ==> p.add[0].index == if p.cut == 0 then |h| + 1 else p.cut)
        && (p.cut != 0 ==> p.add != [])
    decreases |entries| - i
  {
    if i < |entries| {
      hide EntryAt, LastIndex, ValidEntry;
      LastIs(n, h);
      EntryIs(n, h, prev + i + 1);
      PlanSound(n, h, prev, entries, i + 1);
    }
  }

  /** Entry j of a request is well formed and already in place. */
  predicate InPlace(n: Node, prev: nat, entries: Log, j: nat)
    requires j < |entries|
  {
    var e := entries[j];
    ValidEntry(e) && e.index == prev + j + 1 && EntryAt(n, e.index) == Some(e)
  }

  /** Entry j continues the log, or conflicts by term above the commit index. */
  predicate Welcome(n: Node, prev: nat, entries: Log, j: nat)
    requires j < |entries|
  {
    var e := entries[j];
    && ValidEntry(e) && e.index == prev + j + 1
    && (e.index == LastIndex(n) + 1
        || (n.commit < e.index && EntryAt(n, e.index).Some? && EntryAt(n, e.index).value.term != e.term))
  }

  /** What any request leads to is decided by its first entry that is not in
      place: with none nothing changes; otherwise the request is carried out
      from that entry on if it is welcome, and refused if it is not. */
  lemma {:induction false} PlanIff(n: Node, h: Log, prev: nat, entries: Log, i: nat, k: nat)
    requires Indexed(h) && SuffixOf(n.log, n.meta, h) && n.meta.index <= prev && i <= k <= |entries|
    requires (forall j :: i <= j < k ==> InPlace(n, prev, entries, j)) && (k < |entries| ==> !InPlace(n, prev, entries, k))
    ensures var p := PlanFrom(n, prev, entries, i);
      && (k == |entries| ==> p == Plan(0, []))
      && (k < |entries| ==>
            p == if Welcome(n, prev, entries, k)
              then Plan(if entries[k].index > LastIndex(n) then 0 else entries[k].index, entries[k..]) else Refuse)
    decreases |entries| - i
  {
    if i < |entries| {
      hide EntryAt, LastIndex, ValidEntry;
      LastIs(n, h);
      EntryIs(n, h, prev + i + 1);
      if i < k {
        assert InPlace(n, prev, entries, i);
        PlanIff(n, h, prev, entries, i + 1, k);
      }
    }
  }

  /** The history a plan leaves. */
  function Planned(h: Log, cut: nat, add: Log): Log
    requires cut <= |h|
  {
    if Loadable(add) then (if cut == 0 then h else h[..cut - 1]) + add
    else if cut == 0 then h else h[..cut - 1]
  }

  lemma {:induction false} PlannedIndexed(h: Log, cut: nat, add: Log)
    requires Indexed(h) && cut <= |h|
    requires add != [] ==> add[0].index == if cut == 0 then |h| + 1 else cut
    ensures Indexed(Planned(h, cut, add))
  {
    var base := if cut == 0 then h else h[..cut - 1];
    if Loadable(add) && add != [] {
      Consecutive(add, |base| + 1);
    }
  }

  lemma {:induction false} Consecutive(add: Log, first: nat)
    requires Loadable(add) && add != [] && add[0].index == first
    ensures forall i :: 0 <= i < |add| ==> add[i].index == first + i
  {
    if |add| > 1 {
      assert add[1].index == add[0].index + 1;
      assert Loadable(add[1..]);
      Consecutive(add[1..], first + 1);
      forall i | 0 < i < |add| ensures add[i].index == first + i { assert add[i] == add[1..][i - 1]; }
    }
  }

  /** Cutting and appending act on the history, not on the boundary. */
  lemma PlannedNode(n: Node, h: Log, cut: nat, add: Log)
    requires Indexed(h) && SuffixOf(n.log, n.meta, h) && n.disk.log == n.log && cut <= |h| && (cut != 0 ==> n.meta.index < cut)
    ensures var a := CutTo(n, cut); var b := AddAll(a.node, add);
      && a.reply && (b.reply <==> Loadable(add))
      && SuffixOf(b.node.log, b.node.meta, Planned(h, cut, add)) && b.node.disk.log == b.node.log
      && b.node == Relogged(n, b.node.log)
      && a.node.disk == n.disk.(log := a.node.log)
  {
    hide Loadable;
    var base := if cut == 0 then h else h[..cut - 1];
    var a := CutTo(n, cut);
    if cut != 0 {
      CutOut(n, h, h, cut - 1);
    } else {
      assert Relogged(n, n.log) == n;
    }
    assert a.node == Relogged(n, base[n.meta.index..]);
    hide CutTo, AddAll;
    Added(a.node, add);
    assert base[n.meta.index..] + add == (base + add)[n.meta.index..];
  }

  lemma Added(n: Node, add: Log)
    requires n.disk.log == n.log
    ensures AddAll(n, add).reply == Loadable(add)
    ensures AddAll(n, add).node == if Loadable(add) then Relogged(n, n.log + add) else n
  {
    hide Loadable, PerformAll, Appends;
    PerformAppends(n.disk, add);
  }

  lemma SameCommit(a: Node, b: Node, h: Log, c: nat)
    requires Twins(a, b, h)
    ensures CommitUpTo(a, c).reply == CommitUpTo(b, c).reply && CommitUpTo(a, c).writes == CommitUpTo(b, c).writes
    ensures Twins(CommitUpTo(a, c).node, CommitUpTo(b, c).node, h)
  {
    hide Indexed, SuffixOf;
  }

  /** A follower's outcome once the plan is known. */
  lemma AppendFollowsPlan(n: Node, r: AppendReq, cut: nat, add: Log)
    requires n.role == Follower && n.leader == r.leader && MatchesPrefix(n, r.prevIndex, r.prevTerm)
    requires PlanFrom(n, r.prevIndex, r.entries, 0) == Plan(cut, add) && CutTo(n, cut).reply
    ensures var b := AddAll(CutTo(n, cut).node, add); var c := CommitUpTo(b.node, Min(r.commit, LastIndex(b.node)));
      && AppendInTerm(n, r).node == (if b.reply then c.node else b.node)
      && AppendInTerm(n, r).reply == AppendResp(n.term, b.reply && c.reply)
      && AppendInTerm(n, r).writes == CutTo(n, cut).writes + if b.reply then b.writes + c.writes else []
  {
    hide PlanFrom, MatchesPrefix, CutTo, AddAll, CommitUpTo, LastIndex;
    assert n.(role := Follower, leader := r.leader) == n;
  }

  /** What carrying out a plan writes depends on the plan alone. */
  lemma PlanWrites(n: Node, cut: nat, add: Log)
    ensures CutTo(n, cut).writes == if cut == 0 then [] else [CutLog(cut)]
    ensures AddAll(CutTo(n, cut).node, add).writes == if Loadable(add) then Appends(add) else []
  {
    hide Loadable, Appends, PerformAll, Offset;
  }

  lemma PlannedTwins(a: Node, b: Node, h: Log, cut: nat, add: Log)
    requires Twins(a, b, h) && cut <= |h| && (cut != 0 ==> a.meta.index < cut && b.meta.index < cut)
    requires add != [] ==> add[0].index == if cut == 0 then |h| + 1 else cut
    ensures CutTo(a, cut).reply && CutTo(b, cut).reply
    ensures var x, y := AddAll(CutTo(a, cut).node, add), AddAll(CutTo(b, cut).node, add);
      && x.reply == y.reply && x.writes == y.writes && Twins(x.node, y.node, Planned(h, cut, add))
      && CutTo(a, cut).writes == CutTo(b, cut).writes
  {
    hide CutTo, AddAll, Indexed, SuffixOf, Loadable, Planned;
    PlanWrites(a, cut, add);
    PlanWrites(b, cut, add);
    PlannedNode(a, h, cut, add);
    PlannedNode(b, h, cut, add);
    PlannedIndexed(h, cut, add);
  }

  lemma SamePlanned(a: Node, b: Node, h: Log, r: AppendReq) returns (h': Log)
    requires Twins(a, b, h) && a.meta.index <= r.prevIndex && b.meta.index <= r.prevIndex
    requires a.role == Follower && a.leader == r.leader && b.role == Follower && b.leader == r.leader
    requires MatchesPrefix(a, r.prevIndex, r.prevTerm) && MatchesPrefix(b, r.prevIndex, r.prevTerm)
    requires PlanFrom(a, r.prevIndex, r.entries, 0).Plan?
    ensures AppendInTerm(a, r).reply == AppendInTerm(b, r).reply && AppendInTerm(a, r).writes == AppendInTerm(b, r).writes
    ensures Twins(AppendInTerm(a, r).node, AppendInTerm(b, r).node, h')
  {
    hide MatchesPrefix, PlanFrom, CutTo, AddAll, LastIndex, Indexed, SuffixOf, CommitUpTo, AppendInTerm, Loadable;
    SamePlan(a, b, h, r.prevIndex, r.entries, 0);
    var p := PlanFrom(a, r.prevIndex, r.entries, 0);
    PlanSound(a, h, r.prevIndex, r.entries, 0);
    PlannedTwins(a, b, h, p.cut, p.add);
    h' := Planned(h, p.cut, p.add);
    hide Planned;
    AppendFollowsPlan(a, r, p.cut, p.add);
    AppendFollowsPlan(b, r, p.cut, p.add);
    var x, y := AddAll(CutTo(a, p.cut).node, p.add).node, AddAll(CutTo(b, p.cut).node, p.add).node;
    LastIs(x, h');
    LastIs(y, h');
    SameCommit(x, y, h', Min(r.commit, |h'|));
  }

  lemma SameAppendsInTerm(a: Node, b: Node, h: Log, r: AppendReq) returns (h': Log)
    requires Twins(a, b, h) && a.meta.index <= r.prevIndex && b.meta.index <= r.prevIndex
    ensures AppendInTerm(a, r).reply == AppendInTerm(b, r).reply && AppendInTerm(a, r).writes == AppendInTerm(b, r).writes
    ensures Twins(AppendInTerm(a, r).node, AppendInTerm(b, r).node, h')
  {
    hide TermAt, PlanFrom, CutTo, AddAll, LastIndex, Indexed, SuffixOf, CommitUpTo;
    var a0, b0 := a.(role := Follower, leader := r.leader), b.(role := Follower, leader := r.leader);
    TermIs(a0, h, r.prevIndex);
    TermIs(b0, h, r.prevIndex);
    SamePlan(a0, b0, h, r.prevIndex, r.entries, 0);
    SameAppend(a, r);
    SameAppend(b, r);
    h' := h;
    if MatchesPrefix(a0, r.prevIndex, r.prevTerm) && PlanFrom(a0, r.prevIndex, r.entries, 0).Plan? {
      hide AppendInTerm;
      h' := SamePlanned(a0, b0, h, r);
    }
  }

  /** Any AppendEntries at or after both boundaries, from any sender, is
      answered alike, makes the same durable writes and leaves the same history. */
  lemma SameAppends(a: Node, b: Node, h: Log, r: AppendReq) returns (h': Log)
    requires Twins(a, b, h) && a.meta.index <= r.prevIndex && b.meta.index <= r.prevIndex
    ensures HandleAppend(a, r).reply == HandleAppend(b, r).reply && HandleAppend(a, r).writes == HandleAppend(b, r).writes
    ensures Twins(HandleAppend(a, r).node, HandleAppend(b, r).node, h')
  {
    hide AppendInTerm, BecomeFollower, Indexed, SuffixOf;
    h' := h;
    if r.term > a.term {
      SameFollowing(a, b, h, r.term, r.leader);
      var x, y := BecomeFollower(a, r.term, r.leader), BecomeFollower(b, r.term, r.leader);
      if x.reply { h' := SameAppendsInTerm(x.node, y.node, h, r); }
    } else if r.term == a.term {
      h' := SameAppendsInTerm(a, b, h, r);
    }
  }
}
