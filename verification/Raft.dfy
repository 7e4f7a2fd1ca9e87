/** The Raft node as the program runs it: fields updated in place, every
    durable write made before the field it protects, loops where the program
    loops. Each method is one locked section and is proved to compute exactly
    the node, the writes in their order, and the reply of its Node function. */
module RaftNode {
  import opened Entries
  import opened KvStore
  import opened Disk
  import opened Node
  import N = Node

  /** What a leader saw before it loaded a snapshot for a peer. */
  datatype Ticket = Ticket(term: nat, meta: Boundary)

  class Raft {
    const cfg: Config
    const kv: MemoryStore
    var role: Role
    var currentTerm: nat
    var votedFor: int
    var leaderId: int
    var log: Log
    var snapshotMeta: Boundary
    var commitIndex: nat
    var lastApplied: nat
    var nextIndex: map<int, nat>
    var matchIndex: map<int, nat>
    var granted: set<int>
    var phase: Phase
    var disk: Disk
    ghost var written: seq<Write>

    ghost predicate Valid() {
      kv.limit == cfg.limit
    }

    function View(): Node
      reads this, kv
    {
      Node(cfg, role, currentTerm, votedFor, leaderId, log, snapshotMeta, commitIndex, lastApplied,
           nextIndex, matchIndex, granted, kv.data, phase, disk)
    }

    /** The node is now n, and made the writes ws on the way. */
    twostate predicate Became(n: Node, ws: seq<Write>)
      reads this, kv
    {
      View() == n && written == old(written) + ws
    }

    constructor (n: Node, store: MemoryStore)
      requires store.limit == n.cfg.limit && store.data == n.store
      ensures Valid() && View() == n && written == [] && kv == store
    {
      cfg, kv, role, currentTerm, votedFor, leaderId := n.cfg, store, n.role, n.term, n.votedFor, n.leader;
      log, snapshotMeta, commitIndex, lastApplied := n.log, n.meta, n.commit, n.applied;
      nextIndex, matchIndex, granted, phase, disk, written := n.next, n.match_, n.granted, n.phase, n.disk, [];
    }

    // ------------------------------------------------------ durable updates

    method Persist(w: Write)
      modifies this`disk, this`written
      ensures disk == Perform(old(disk), w) && written == old(written) + [w]
    {
      disk := Perform(disk, w);
      written := written + [w];
    }

    /** Refuses a vote below the sentinel and an applied index past the commit index. */
    method SaveStableValues(term: nat, vote: int, commit: nat, applied: nat) returns (ok: bool)
      modifies this`disk, this`written
      ensures ok == StableOk(Stable(term, vote, commit, applied))
      ensures ok ==> disk == Perform(old(disk), SaveStable(Stable(term, vote, commit, applied)))
      ensures ok ==> written == old(written) + [SaveStable(Stable(term, vote, commit, applied))]
      ensures !ok ==> disk == old(disk) && written == old(written)
    {
      if vote < NO_VOTE { return false; }
      if applied > commit { return false; }
      Persist(SaveStable(Stable(term, vote, commit, applied)));
      ok := true;
    }

    method AppendAll(es: Log)
      modifies this`disk, this`written
      ensures disk == PerformAll(old(disk), Appends(es)) && written == old(written) + Appends(es)
    {
      var i := 0;
      while i < |es|
        invariant 0 <= i <= |es|
        invariant disk == PerformAll(old(disk), Appends(es[..i])) && written == old(written) + Appends(es[..i])
      {
        Persist(AppendEntry(es[i]));
        OneMore(old(disk), es, i);
        i := i + 1;
      }
      assert es[..i] == es;
    }

    // --------------------------------------------------------- role changes

    /** Takes a term, vote, role and leader into memory, once they are durable. */
    method Enter(term: nat, vote: int, as_: Role, leader: int)
      modifies this`currentTerm, this`votedFor, this`role, this`leaderId
      ensures currentTerm == term && votedFor == vote && role == as_ && leaderId == leader
    {
      currentTerm := term;
      votedFor := vote;
      role := as_;
      leaderId := leader;
    }

    method BecomeFollower(term: nat, leader: int) returns (ok: bool)
      modifies this
      ensures var o := N.BecomeFollower(old(View()), term, leader); Became(o.node, o.writes) && ok == o.reply
    {
      hide Perform;
      if term < currentTerm { return true; }
      if term > currentTerm {
        ok := SaveStableValues(term, NO_VOTE, commitIndex, lastApplied);
        if !ok { return; }
        Enter(term, NO_VOTE, Follower, leader);
        return;
      }
      role := Follower;
      leaderId := leader;
      ok := true;
    }

    method BecomeCandidate() returns (ok: bool)
      modifies this
      ensures var o := N.BecomeCandidate(old(View())); Became(o.node, o.writes) && ok == o.reply
    {
      hide Perform, StableOk;
      var newTerm := currentTerm + 1;
      ok := SaveStableValues(newTerm, cfg.id, commitIndex, lastApplied);
      if !ok { return; }
      Enter(newTerm, cfg.id, Candidate, UNKNOWN_LEADER);
      granted := {};
    }

    method AppendOwn(e: LogEntry)
      modifies this`disk, this`written, this`log
      ensures disk == Perform(old(disk), AppendEntry(e)) && written == old(written) + [AppendEntry(e)] && log == old(log) + [e]
    {
      Persist(AppendEntry(e));
      log := log + [e];
    }

    method BecomeLeader()
      modifies this
      ensures var o := N.BecomeLeader(old(View())); Became(o.node, o.writes)
    {
      hide Perform, Uniform, LastIndexFor;
      var noop := LogEntry(LastIndexFor(log, snapshotMeta) + 1, currentTerm, NOOP, "", "");
      AppendOwn(noop);
      TakeLead(noop.index + 1);
    }

    method TakeLead(next: nat)
      modifies this`role, this`leaderId, this`nextIndex, this`matchIndex
      ensures role == Leader && leaderId == cfg.id && nextIndex == Uniform(cfg.peers, next) && matchIndex == Uniform(cfg.peers, 0)
    {
      hide Uniform;
      role := Leader;
      leaderId := cfg.id;
      ResetCursors(next);
    }

    method ResetCursors(next: nat)
      modifies this`nextIndex, this`matchIndex
      ensures nextIndex == Uniform(cfg.peers, next) && matchIndex == Uniform(cfg.peers, 0)
    {
      nextIndex, matchIndex := map[], map[];
      var i := 0;
      while i < |cfg.peers|
        invariant 0 <= i <= |cfg.peers|
        invariant nextIndex == Uniform(cfg.peers[..i], next) && matchIndex == Uniform(cfg.peers[..i], 0)
      {
        assert cfg.peers[..i + 1][..i] == cfg.peers[..i];
        nextIndex := nextIndex[cfg.peers[i] := next];
        matchIndex := matchIndex[cfg.peers[i] := 0];
        i := i + 1;
      }
      assert cfg.peers[..i] == cfg.peers;
    }

    // ------------------------------------------------------------ elections

    method StartElection() returns (req: Option<VoteReq>)
      modifies this
      ensures var o := N.StartElection(old(View())); Became(o.node, o.writes) && req == o.reply
    {
      hide Perform, TermAt;
      if role == Leader { return None; }
      var ok := BecomeCandidate();
      if !ok { return None; }
      req := Some(VoteReq(currentTerm, cfg.id, LastIndexFor(log, snapshotMeta), LastTermOf(View())));
    }

    method HandleVoteResponse(from: int, req: VoteReq, resp: VoteResp) returns (r: bool)
      modifies this
      ensures var o := HandleVoteResp(old(View()), from, req, resp); Became(o.node, o.writes) && r == o.reply
    {
      hide Perform;
      if resp.term > currentTerm { r := BecomeFollower(resp.term, UNKNOWN_LEADER); return; }
      if role != Candidate || currentTerm != req.term { return false; }
      r := false;
      if resp.term == req.term && resp.granted && from in cfg.peers && from !in granted {
        granted := granted + {from};
        if |granted| + 1 >= Majority(cfg) { BecomeLeader(); r := true; }
      }
    }

    method HandleRequestVote(req: VoteReq) returns (resp: VoteResp)
      modifies this
      ensures var o := HandleVote(old(View()), req); Became(o.node, o.writes) && resp == o.reply
    {
      hide Perform, LastTermOf;
      if req.term < currentTerm { return VoteResp(currentTerm, false); }
      if req.term > currentTerm {
        var ok := BecomeFollower(req.term, UNKNOWN_LEADER);
        if !ok { return VoteResp(currentTerm, false); }
      }
      if votedFor != NO_VOTE && votedFor != req.candidate { return VoteResp(currentTerm, false); }
      if !UpToDate(View(), req.lastIndex, req.lastTerm) { return VoteResp(currentTerm, false); }
      if votedFor != req.candidate {
        var ok := SaveStableValues(currentTerm, req.candidate, commitIndex, lastApplied);
        if !ok { return VoteResp(currentTerm, false); }
        votedFor := req.candidate;
      }
      resp := VoteResp(currentTerm, true);
    }

    // ---------------------------------------------------------- replication

    method Propose(c: Command) returns (r: Proposal)
      modifies this
      ensures var o := N.Propose(old(View()), c); Became(o.node, o.writes) && r == o.reply
    {
      hide Perform, ValidCommand;
      if !ValidCommand(c) { return BadCommand; }
      if role != Leader { return NotLeader; }
      if phase == Stopped { return Unavailable; }
      var e := LogEntry(LastIndexFor(log, snapshotMeta) + 1, currentTerm, c.op, c.key, c.value);
      AppendOwn(e);
      r := Accepted(e.index);
    }

    /** The smallest durable change that brings the entries into the log. */
    method ReplicationPlan(prev: nat, entries: Log) returns (plan: Plan)
      ensures plan == PlanFrom(View(), prev, entries, 0)
    {
      var i := 0;
      while i < |entries|
        invariant 0 <= i <= |entries| && PlanFrom(View(), prev, entries, 0) == PlanFrom(View(), prev, entries, i)
      {
        var e := entries[i];
        if !ValidEntry(e) { return Refuse; }
        if e.index != prev + i + 1 { return Refuse; }
        if e.index <= LastIndexFor(log, snapshotMeta) {
          var existing := EntryAt(View(), e.index);
          if existing.None? { return Refuse; }
          if existing.value != e {
            if existing.value.term == e.term { return Refuse; }
            if e.index <= commitIndex { return Refuse; }
            return Plan(e.index, entries[i..]);
          }
        } else {
          if e.index != LastIndexFor(log, snapshotMeta) + 1 { return Refuse; }
          return Plan(0, entries[i..]);
        }
        i := i + 1;
      }
      plan := Plan(0, []);
    }

    method TruncateLog(cut: nat) returns (ok: bool)
      modifies this
      ensures var o := CutTo(old(View()), cut); Became(o.node, o.writes) && ok == o.reply
    {
      hide Perform;
      if cut == 0 { return true; }
      Persist(CutLog(cut));
      var offset := Offset(View(), cut);
      if offset.None? || offset.value > |log| { return false; }
      log := log[..offset.value];
      ok := true;
    }

    method AppendLog(es: Log) returns (ok: bool)
      modifies this
      ensures var o := AddAll(old(View()), es); Became(o.node, o.writes) && ok == o.reply
    {
      hide PerformAll, Appends, Loadable;
      if !Loadable(es) { return false; }
      AppendAll(es);
      log := log + es;
      ok := true;
    }

    method AdvanceCommitTo(c: nat) returns (ok: bool)
      modifies this
      ensures var o := CommitUpTo(old(View()), c); Became(o.node, o.writes) && ok == o.reply
    {
      hide Perform;
      ok := true;
      if c > commitIndex {
        ok := SaveStableValues(currentTerm, votedFor, c, lastApplied);
        if !ok { return; }
        commitIndex := c;
      }
    }

    method AcceptEntries(req: AppendReq) returns (resp: AppendResp)
      modifies this
      ensures var o := AppendInTerm(old(View()), req); Became(o.node, o.writes) && resp == o.reply
    {
      hide CutTo, AddAll, CommitUpTo, PlanFrom, MatchesPrefix;
      role := Follower;
      leaderId := req.leader;
      ghost var n0 := View();
      if !MatchesPrefix(View(), req.prevIndex, req.prevTerm) { return AppendResp(currentTerm, false); }
      var plan := ReplicationPlan(req.prevIndex, req.entries);
      if plan.Refuse? { return AppendResp(currentTerm, false); }
      KeepsTerm(n0, plan.cut, plan.add);
      var ok := TruncateLog(plan.cut);
      if !ok { return AppendResp(currentTerm, false); }
      ok := AppendLog(plan.add);
      if !ok { return AppendResp(currentTerm, false); }
      ghost var n2 := View();
      var last := LastIndexFor(log, snapshotMeta);
      ok := AdvanceCommitTo(Min(req.commit, last));
      CommitKeepsTerm(n2, Min(req.commit, last));
      resp := AppendResp(currentTerm, ok);
    }

    method HandleAppendEntries(req: AppendReq) returns (resp: AppendResp)
      modifies this
      ensures var o := HandleAppend(old(View()), req); Became(o.node, o.writes) && resp == o.reply
    {
      hide AppendInTerm, Perform;
      if req.term < currentTerm { return AppendResp(currentTerm, false); }
      if req.term > currentTerm {
        var ok := BecomeFollower(req.term, req.leader);
        if !ok { return AppendResp(currentTerm, false); }
      }
      resp := AcceptEntries(req);
    }

    method BuildAppendEntries(peer: int) returns (r: Option<AppendReq>)
      ensures r == BuildAppend(View(), peer)
    {
      if role != Leader || peer !in nextIndex { return None; }
      var next := nextIndex[peer];
      if next <= snapshotMeta.index || next > LastIndexFor(log, snapshotMeta) + 1 { return None; }
      var t := TermAt(View(), next - 1);
      if t.None? { return None; }
      var es := EntriesFrom(View(), next);
      if es.None? { return None; }
      r := Some(AppendReq(currentTerm, cfg.id, next - 1, t.value, es.value, commitIndex));
    }

    /** How many peers are known to hold index. */
    method CountMatched(index: nat) returns (n: nat)
      ensures n == Matched(cfg.peers, matchIndex, index)
    {
      n := 0;
      var i := 0;
      while i < |cfg.peers|
        invariant 0 <= i <= |cfg.peers| && n + Matched(cfg.peers[i..], matchIndex, index) == Matched(cfg.peers, matchIndex, index)
      {
        assert cfg.peers[i..][1..] == cfg.peers[i + 1..];
        if cfg.peers[i] in matchIndex && matchIndex[cfg.peers[i]] >= index { n := n + 1; }
        i := i + 1;
      }
    }

    /** Searches down from the last index for a current-term entry on a majority. */
    method AdvanceCommitIndex() returns (advanced: bool)
      modifies this
      ensures var o := AdvanceCommit(old(View())); Became(o.node, o.writes) && advanced == o.reply
    {
      hide Perform, TermAt, Matched;
      ghost var n := View();
      var index: nat := LastIndexFor(log, snapshotMeta);
      while index > commitIndex
        invariant View() == n && written == old(written)
        invariant CommitPoint(n, LastIndex(n)) == CommitPoint(n, index)
        decreases index
      {
        var t := TermAt(View(), index);
        if t == Some(currentTerm) {
          var matched := CountMatched(index);
          if 1 + matched >= Majority(cfg) {
            advanced := SaveStableValues(currentTerm, votedFor, index, lastApplied);
            if !advanced { return; }
            commitIndex := index;
            return true;
          }
        }
        index := index - 1;
      }
      advanced := false;
    }

    method HandleAppendEntriesResponse(peer: int, req: AppendReq, resp: AppendResp) returns (retry: bool)
      modifies this
      ensures var o := HandleAppendResp(old(View()), peer, req, resp); Became(o.node, o.writes) && retry == o.reply
    {
      hide Perform, AdvanceCommit;
      if resp.term > currentTerm {
        var _ := BecomeFollower(resp.term, UNKNOWN_LEADER);
        return false;
      }
      if role != Leader || req.term != currentTerm || resp.term != currentTerm { return false; }
      if !resp.success {
        if At(nextIndex, peer) <= 1 { return false; }
        nextIndex := nextIndex[peer := nextIndex[peer] - 1];
        return true;
      }
      var matched := req.prevIndex + |req.entries|;
      matchIndex := matchIndex[peer := Max(At(matchIndex, peer), matched)];
      nextIndex := nextIndex[peer := Max(At(nextIndex, peer), matchIndex[peer] + 1)];
      var _ := AdvanceCommitIndex();
      retry := false;
    }

    // ------------------------------------------------------------ snapshots

    /** The first look, before the snapshot is loaded without the lock. */
    method NeedsSnapshot(peer: int) returns (t: Option<Ticket>)
      ensures t == if role == Leader && peer in nextIndex && nextIndex[peer] <= snapshotMeta.index
        then Some(Ticket(currentTerm, snapshotMeta)) else None
    {
      if role != Leader { return None; }
      if peer !in nextIndex || nextIndex[peer] > snapshotMeta.index { return None; }
      t := Some(Ticket(currentTerm, snapshotMeta));
    }

    /** The second look: whatever happened since the ticket, nothing is sent
        unless role, term and boundary are the ticket's, and what is sent is
        what the node would build now. */
    method BuildInstallSnapshot(peer: int, t: Ticket, stored: Option<Snapshot>) returns (r: Option<InstallReq>)
      ensures r.Some? ==
        (stored.Some? && BoundaryOf(stored) == t.meta == snapshotMeta && role == Leader && currentTerm == t.term && At(nextIndex, peer) <= t.meta.index)
      ensures r.Some? && peer in nextIndex ==> r == BuildInstall(View(), peer, stored)
    {
      if stored.None? || stored.value.index != t.meta.index || stored.value.term != t.meta.term { return None; }
      if role != Leader || currentTerm != t.term || snapshotMeta != t.meta || At(nextIndex, peer) > t.meta.index { return None; }
      r := Some(InstallReq(t.term, cfg.id, t.meta.index, t.meta.term, stored.value.data));
    }

    method HandleInstallSnapshotResponse(peer: int, req: InstallReq, resp: InstallResp) returns (retry: bool)
      modifies this
      ensures var o := HandleInstallResp(old(View()), peer, req, resp); Became(o.node, o.writes) && retry == o.reply
    {
      hide Perform;
      if resp.term > currentTerm {
        var _ := BecomeFollower(resp.term, UNKNOWN_LEADER);
        return false;
      }
      if role != Leader || req.term != currentTerm || resp.term != currentTerm { return false; }
      matchIndex := matchIndex[peer := req.index];
      nextIndex := nextIndex[peer := req.index + 1];
      retry := true;
    }

    /** Saves the snapshot first; the log is compacted or dropped after it. */
    method SaveAndCut(snap: Snapshot, keep: bool)
      modifies this`disk, this`written
      ensures var ws := [SaveSnapshot(snap)] + (if keep then [CompactLog(snap.index)]
                                                else if |log| > 0 then [CutLog(snapshotMeta.index + 1)] else []);
        disk == PerformAll(old(disk), ws) && written == old(written) + ws
    {
      hide Perform, PerformAll;
      Persist(SaveSnapshot(snap));
      TwoWrites(old(disk), SaveSnapshot(snap), if keep then CompactLog(snap.index) else CutLog(snapshotMeta.index + 1));
      if keep {
        Persist(CompactLog(snap.index));
      } else if |log| > 0 {
        Persist(CutLog(snapshotMeta.index + 1));
      }
    }

    /** Takes a log after a new boundary into memory, once it is durable. */
    method MoveTo(rest: Log, meta: Boundary, commit: nat, applied: nat)
      modifies this`log, this`snapshotMeta, this`commitIndex, this`lastApplied
      ensures log == rest && snapshotMeta == meta && commitIndex == commit && lastApplied == applied
    {
      log := rest;
      snapshotMeta := meta;
      commitIndex := commit;
      lastApplied := applied;
    }

    method PublishInstall(req: InstallReq, kept: Option<Log>) returns (resp: Option<InstallResp>)
      requires Valid()
      modifies this, kv
      ensures var o := FinishInstall(old(View()), req, kept); Became(o.node, o.writes) && resp == o.reply
    {
      hide Perform, Restorable;
      var ok := kv.Restore(req.data);
      if !ok { return None; }
      var newCommit, newApplied := Max(commitIndex, req.index), Max(lastApplied, req.index);
      ok := SaveStableValues(currentTerm, votedFor, newCommit, newApplied);
      if !ok { return None; }
      MoveTo(if kept.Some? then kept.value else [], Boundary(req.index, req.lastTerm), newCommit, newApplied);
      resp := Some(InstallResp(currentTerm));
    }

    method InstallImage(req: InstallReq) returns (resp: Option<InstallResp>)
      requires Valid()
      modifies this, kv
      ensures var o := InstallInTerm(old(View()), req); Became(o.node, o.writes) && resp == o.reply
    {
      hide PerformAll, KeptSuffix, FinishInstall;
      role := Follower;
      leaderId := req.leader;
      var snap := Snapshot(req.index, req.lastTerm, req.data);
      if !SnapshotOk(snap) { return None; }
      if req.index <= lastApplied { return Some(InstallResp(currentTerm)); }
      var kept := KeptSuffix(View(), req);
      SaveAndCut(snap, kept.Some?);
      resp := PublishInstall(req, kept);
    }

    method HandleInstallSnapshot(req: InstallReq) returns (resp: Option<InstallResp>)
      requires Valid()
      modifies this, kv
      ensures var o := HandleInstall(old(View()), req); Became(o.node, o.writes) && resp == o.reply
    {
      hide InstallInTerm, Perform;
      if req.term < currentTerm { return Some(InstallResp(currentTerm)); }
      if req.term > currentTerm {
        var ok := BecomeFollower(req.term, req.leader);
        if !ok { return None; }
      }
      resp := InstallImage(req);
    }

    // ------------------------------------------- the apply loop's sections

    method PickNext() returns (ok: bool)
      modifies this
      ensures var o := Pick(old(View())); Became(o.node, o.writes) && ok == o.reply
    {
      hide EntryAt;
      if phase != Idle || lastApplied >= commitIndex { return false; }
      var e := EntryAt(View(), lastApplied + 1);
      if e.None? { phase := Stopped; return false; }
      phase := Picked(e.value);
      ok := true;
    }

    method ApplyPicked() returns (ok: bool)
      requires Valid()
      modifies this, kv
      ensures var o := RunEntry(old(View())); Became(o.node, o.writes) && ok == o.reply
    {
      hide TryApply;
      if !phase.Picked? { return false; }
      var e := phase.entry;
      ok := kv.ApplyEntry(e);
      phase := if ok then Applied(e) else Stopped;
    }

    method PublishApplied() returns (ok: bool)
      modifies this
      ensures var o := Publish(old(View())); Became(o.node, o.writes) && ok == o.reply
    {
      hide Perform;
      if !phase.Applied? { return false; }
      var e := phase.entry;
      phase := Stopped;
      if lastApplied + 1 != e.index { return false; }
      ok := SaveStableValues(currentTerm, votedFor, commitIndex, e.index);
      if !ok { return; }
      lastApplied := e.index;
      phase := Idle;
    }

    method CaptureBoundary() returns (ok: bool)
      modifies this
      ensures var o := Capture(old(View())); Became(o.node, o.writes) && ok == o.reply
    {
      hide TermAt;
      if phase != Idle || lastApplied - snapshotMeta.index < cfg.threshold { return false; }
      var t := TermAt(View(), lastApplied);
      if t.None? { return false; }
      phase := Captured(lastApplied, t.value);
      ok := true;
    }

    method SaveCaptured() returns (ok: bool)
      modifies this
      ensures var o := SaveImage(old(View())); Became(o.node, o.writes) && ok == o.reply
    {
      hide Perform;
      if !phase.Captured? { return false; }
      var data := kv.Snapshot();
      var snap := Snapshot(phase.index, phase.term, data);
      if !SnapshotOk(snap) { phase := Idle; return false; }
      Persist(SaveSnapshot(snap));
      phase := Saved(snap.index, snap.term);
      ok := true;
    }

    method PublishSaved() returns (ok: bool)
      modifies this
      ensures var o := PublishImage(old(View())); Became(o.node, o.writes) && ok == o.reply
    {
      hide Perform, EntriesFrom;
      if !phase.Saved? { return false; }
      var i, t := phase.index, phase.term;
      var kept := EntriesFrom(View(), i + 1);
      phase := Idle;
      if lastApplied != i || snapshotMeta.index >= i || commitIndex < i || kept.None? { return false; }
      Persist(CompactLog(i));
      MoveTo(kept.value, Boundary(i, t), commitIndex, lastApplied);
      ok := true;
    }
  }

  // ------------------------------------------------------------------ startup

  /** Every entry is valid and follows the boundary without a gap. */
  method ValidateLogSuffix(entries: Log, meta: Boundary) returns (ok: bool)
    ensures ok == FollowsBoundary(entries, meta)
  {
    var expected := meta.index + 1;
    var i := 0;
    while i < |entries|
      invariant 0 <= i <= |entries| && expected == meta.index + 1 + i && FollowsBoundary(entries[..i], meta)
    {
      if !ValidEntry(entries[i]) || entries[i].index != expected { return false; }
      expected := expected + 1;
      i := i + 1;
    }
    assert entries[..i] == entries;
    ok := true;
  }

  /** Applies the first count entries of the log, stopping at one the store refuses. */
  method ReplayCommitted(kv: MemoryStore, log: Log, count: nat) returns (ok: bool)
    requires count <= |log|
    modifies kv
    ensures var r := Replay(old(kv.data), log, 0, count, kv.limit); ok == r.Some? && (ok ==> kv.data == r.value)
  {
    hide TryApply;
    var i := 0;
    while i < count
      invariant 0 <= i <= count
      invariant Replay(old(kv.data), log, 0, count, kv.limit) == Replay(kv.data, log, i, count, kv.limit)
    {
      ok := kv.ApplyEntry(log[i]);
      if !ok { return; }
      i := i + 1;
    }
    ok := true;
  }

  /** The durable registers and the writes made to them during startup. */
  class Registers {
    var disk: Disk
    ghost var written: seq<Write>

    constructor (d: Disk)
      ensures disk == d && written == []
    {
      disk, written := d, [];
    }

    method Persist(w: Write)
      modifies this
      ensures disk == Perform(old(disk), w) && written == old(written) + [w]
    {
      disk := Perform(disk, w);
      written := written + [w];
    }
  }

  method RecoverLog(regs: Registers, meta: Boundary) returns (ok: bool)
    modifies regs
    ensures var r := Reconcile(old(regs.disk.log), meta);
      && ok == r.Some?
      && (ok ==> regs.disk == PerformAll(old(regs.disk), r.value) && regs.written == old(regs.written) + r.value)
      && (!ok ==> regs.disk == old(regs.disk) && regs.written == old(regs.written))
  {
    hide Perform;
    var log := regs.disk.log;
    if |log| == 0 || log[0].index == meta.index + 1 { return true; }
    if log[0].index > meta.index + 1 { return false; }
    var offset := meta.index - log[0].index;
    TwoWrites(regs.disk, CompactLog(meta.index), CompactLog(0));
    TwoWrites(regs.disk, CutLog(log[0].index), CutLog(0));
    if offset < |log| && log[offset].index == meta.index && log[offset].term == meta.term {
      regs.Persist(CompactLog(meta.index));
    } else {
      regs.Persist(CutLog(log[0].index));
    }
    ok := true;
  }

  /** The constructor behind normal and snapshot recovery. */
  method OpenLog(cfg: Config, regs: Registers, meta: Boundary, kv: MemoryStore) returns (r: Raft?)
    requires kv.limit == cfg.limit
    modifies regs, kv
    ensures var b := BootLog(cfg, old(regs.disk), meta, old(kv.data), old(regs.written));
      && regs.written == b.writes && ((r != null) == b.Booted?)
      && (r != null ==> fresh(r) && r.kv == kv && r.Valid() && r.View() == b.node && regs.disk == b.node.disk)
  {
    hide Perform, Loadable, FollowsBoundary, Replay;
    var s, log := regs.disk.stable, regs.disk.log;
    if !StableOk(s) || !Loadable(log) { return null; }
    var ok := ValidateLogSuffix(log, meta);
    if !ok { return null; }
    if s.commit < meta.index || s.commit > LastIndexFor(log, meta) || s.applied < meta.index { return null; }
    if s.commit - meta.index > |log| { return null; }
    ok := ReplayCommitted(kv, log, s.commit - meta.index);
    if !ok { return null; }
    if s.applied != s.commit { regs.Persist(SaveStable(Stable(s.term, s.votedFor, s.commit, s.commit))); }
    r := new Raft(Node(cfg, Follower, s.term, s.votedFor, UNKNOWN_LEADER, log, meta, s.commit, s.commit,
                       map[], map[], {}, kv.data, Idle, regs.disk), kv);
  }

  /** Starting a process on its disk: the snapshot is authoritative, the log is
      reconciled with it, the store restored and the committed suffix replayed. */
  method Open(cfg: Config, d: Disk) returns (r: Raft?, regs: Registers)
    ensures fresh(regs)
    ensures var b := Recover(cfg, d);
      && regs.written == b.writes && ((r != null) == b.Booted?)
      && (r != null ==> fresh(r) && r.Valid() && r.View() == b.node && regs.disk == b.node.disk)
  {
    hide Perform, PerformAll, Loadable, BootLog, Reconcile, Restorable;
    regs := new Registers(d);
    var kv := new MemoryStore(cfg.limit);
    r := null;
    if d.snap.None? {
      r := OpenLog(cfg, regs, Boundary(0, 0), kv);
      return;
    }
    var snap, meta := d.snap.value, BoundaryOf(d.snap);
    if !SnapshotOk(snap) || !StableOk(d.stable) || !Loadable(d.log) { return; }
    var ok := RecoverLog(regs, meta);
    if !ok { return; }
    ok := kv.Restore(snap.data);
    if !ok { return; }
    var s := d.stable;
    if s.commit < meta.index { s := s.(commit := meta.index); }
    if s.applied < meta.index { s := s.(applied := meta.index); }
    ghost var cutting := Reconcile(d.log, meta).value;
    assert regs.written == cutting && s == d.stable.(commit := Max(d.stable.commit, meta.index), applied := Max(d.stable.applied, meta.index));
    regs.Persist(SaveStable(s));
    PerformLast(d, cutting, SaveStable(s));
    r := OpenLog(cfg, regs, meta, kv);
  }

  lemma PerformLast(d: Disk, ws: seq<Write>, w: Write)
    ensures PerformAll(d, ws + [w]) == Perform(PerformAll(d, ws), w)
  {
    hide Perform;
    PerformConcat(d, ws, [w]);
    TwoWrites(PerformAll(d, ws), w, w);
  }

  lemma TwoWrites(d: Disk, a: Write, b: Write)
    ensures PerformAll(d, [a]) == Perform(d, a) && PerformAll(d, [a] + []) == Perform(d, a)
    ensures PerformAll(d, [a] + [b]) == Perform(Perform(d, a), b)
  {
    assert [a][1..] == [] && [b][1..] == [] && [a] + [] == [a];
    PerformConcat(d, [a], [b]);
  }

  lemma KeepsTerm(n: Node, cut: nat, add: Log)
    ensures CutTo(n, cut).node.term == n.term && AddAll(CutTo(n, cut).node, add).node.term == n.term
    ensures !AddAll(CutTo(n, cut).node, add).reply ==> AddAll(CutTo(n, cut).node, add).writes == []
  {
  }

  lemma CommitKeepsTerm(n: Node, c: nat)
    ensures CommitUpTo(n, c).node.term == n.term
  {
  }

  lemma OneMore(d: Disk, es: Log, i: nat)
    requires i < |es|
    ensures Appends(es[..i + 1]) == Appends(es[..i]) + [AppendEntry(es[i])]
    ensures PerformAll(d, Appends(es[..i + 1])) == Perform(PerformAll(d, Appends(es[..i])), AppendEntry(es[i]))
  {
    var w := AppendEntry(es[i]);
    assert Appends(es[..i + 1]) == Appends(es[..i]) + [w];
    PerformConcat(d, Appends(es[..i]), [w]);
    assert [w][1..] == [];
  }
}
