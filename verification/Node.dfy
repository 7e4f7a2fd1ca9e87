/** One Raft node as a value: its volatile fields, its disk, and every handler
    as a function to the next node, the durable writes it makes in order, and
    its reply. The imperative Raft class is proved against these functions. */
module Node {
  import opened Entries
  import opened KvStore
  import opened Disk

  const UNKNOWN_LEADER := -1

  datatype Config = Config(id: int, peers: seq<int>, threshold: nat, limit: nat)

  /** Where the single apply loop is between two acquisitions of the node lock.
      Captured and Saved hold the snapshot lock, so no install can happen then. */
  datatype Phase =
    | Idle
    | Picked(entry: LogEntry)
    | Applied(entry: LogEntry)
    | Captured(index: nat, term: nat)
    | Saved(index: nat, term: nat)
    | Stopped

  datatype Node = Node(
    cfg: Config,
    role: Role,
    term: nat,
    votedFor: int,
    leader: int,
    log: Log,
    meta: Boundary,
    commit: nat,
    applied: nat,
    next: map<int, nat>,
    match_: map<int, nat>,
    granted: set<int>,   // peers whose votes the running election has counted
    store: Store,
    phase: Phase,
    disk: Disk)

  datatype VoteReq = VoteReq(term: nat, candidate: int, lastIndex: nat, lastTerm: nat)
  datatype VoteResp = VoteResp(term: nat, granted: bool)
  datatype AppendReq = AppendReq(term: nat, leader: int, prevIndex: nat, prevTerm: nat, entries: Log, commit: nat)
  datatype AppendResp = AppendResp(term: nat, success: bool)
  datatype InstallReq = InstallReq(term: nat, leader: int, index: nat, lastTerm: nat, data: Payload)
  datatype InstallResp = InstallResp(term: nat)
  datatype Command = Command(op: string, key: string, value: string)

  datatype Outcome<+R> = Outcome(node: Node, writes: seq<Write>, reply: R)

  // ------------------------------------------------- absolute-index lookups

  function LastIndexFor(log: Log, meta: Boundary): nat {
    if log == [] then meta.index else log[|log| - 1].index
  }

  function LastIndex(n: Node): nat {
    LastIndexFor(n.log, n.meta)
  }

  function Offset(n: Node, index: nat): Option<nat> {
    var first := n.meta.index + 1;
    if index < first || index > LastIndex(n) then None
    else if index - first >= |n.log| || n.log[index - first].index != index then None
    else Some(index - first)
  }

  function EntryAt(n: Node, index: nat): Option<LogEntry> {
    var o := Offset(n, index);
    if o.Some? && o.value < |n.log| then Some(n.log[o.value]) else None
  }

  function TermAt(n: Node, index: nat): Option<nat> {
    if index == n.meta.index then Some(n.meta.term)
    else match EntryAt(n, index)
      case Some(e) => Some(e.term)
      case None => None
  }

  function EntriesFrom(n: Node, index: nat): Option<Log> {
    if index < n.meta.index + 1 || index > LastIndex(n) + 1 then None
    else if index == LastIndex(n) + 1 then Some([])
    else
      var o := Offset(n, index);
      if o.Some? && o.value < |n.log| then Some(n.log[o.value..]) else None
  }

  /** The term of the last entry, 0 when it cannot be found. */
  function LastTermOf(n: Node): nat {
    var t := TermAt(n, LastIndex(n));
    if t.Some? then t.value else 0
  }

  predicate UpToDate(n: Node, candIndex: nat, candTerm: nat) {
    AtLeastAsRecent(candIndex, candTerm, LastIndex(n), LastTermOf(n))
  }

  predicate MatchesPrefix(n: Node, index: nat, term: nat) {
    TermAt(n, index) == Some(term)
  }

  // ------------------------------------------------------- durable updates

  function Majority(cfg: Config): nat {
    (|cfg.peers| + 1) / 2 + 1
  }

  function StableOf(n: Node): Stable {
    Stable(n.term, n.votedFor, n.commit, n.applied)
  }

  function Do(n: Node, w: Write): Node {
    n.(disk := Perform(n.disk, w))
  }

  function After<R>(ws: seq<Write>, o: Outcome<R>): Outcome<R> {
    o.(writes := ws + o.writes)
  }

  /** Saving a state document that Save refuses leaves the node as it was. */
  function SaveOr(n: Node, s: Stable, saved: Node): Outcome<bool> {
    if StableOk(s) then Outcome(Do(saved, SaveStable(s)), [SaveStable(s)], true)
    else Outcome(n, [], false)
  }

  // ------------------------------------------------------------ role changes

  function BecomeFollower(n: Node, term: nat, leader: int): Outcome<bool> {
    if term < n.term then Outcome(n, [], true)
    else if term > n.term then
      SaveOr(n, Stable(term, NO_VOTE, n.commit, n.applied),
             n.(term := term, votedFor := NO_VOTE, role := Follower, leader := leader))
    else Outcome(n.(role := Follower, leader := leader), [], true)
  }

  function BecomeCandidate(n: Node): Outcome<bool> {
    SaveOr(n, Stable(n.term + 1, n.cfg.id, n.commit, n.applied),
           n.(term := n.term + 1, votedFor := n.cfg.id, role := Candidate, leader := UNKNOWN_LEADER, granted := {}))
  }

  function NoopFor(n: Node): LogEntry {
    LogEntry(LastIndex(n) + 1, n.term, NOOP, "", "")
  }

  /** One value for every peer. */
  function Uniform(peers: seq<int>, v: nat): (m: map<int, nat>)
    ensures forall p :: p in m <==> p in peers
    ensures forall p :: p in m ==> m[p] == v
  {
    if peers == [] then map[] else
    var k := |peers| - 1;
    assert forall p :: p in peers <==> p in peers[..k] || p == peers[k];
    Uniform(peers[..k], v)[peers[k] := v]
  }

  /** Appends the current-term no-op, then leads with fresh cursors. */
  function BecomeLeader(n: Node): Outcome<bool> {
    var e := NoopFor(n);
    var w := AppendEntry(e);
    Outcome(Do(n, w).(log := n.log + [e], role := Leader, leader := n.cfg.id,
                      next := Uniform(n.cfg.peers, e.index + 1), match_ := Uniform(n.cfg.peers, 0)),
            [w], true)
  }

  // ------------------------------------------------------------- elections

  function StartElection(n: Node): Outcome<Option<VoteReq>> {
    if n.role == Leader then Outcome(n, [], None) else
    var o := BecomeCandidate(n);
    Outcome(o.node, o.writes,
            if o.reply then Some(VoteReq(o.node.term, n.cfg.id, LastIndex(o.node), LastTermOf(o.node))) else None)
  }

  /** A cluster of one elects itself. */
  function WinAlone(n: Node): Outcome<bool> {
    if Majority(n.cfg) == 1 && n.role == Candidate then BecomeLeader(n) else Outcome(n, [], false)
  }

  function VoteInTerm(n: Node, req: VoteReq): Outcome<VoteResp> {
    if n.votedFor != NO_VOTE && n.votedFor != req.candidate then Outcome(n, [], VoteResp(n.term, false))
    else if !UpToDate(n, req.lastIndex, req.lastTerm) then Outcome(n, [], VoteResp(n.term, false))
    else if n.votedFor == req.candidate then Outcome(n, [], VoteResp(n.term, true))
    else
      var o := SaveOr(n, Stable(n.term, req.candidate, n.commit, n.applied), n.(votedFor := req.candidate));
      Outcome(o.node, o.writes, VoteResp(n.term, o.reply))
  }

  function HandleVote(n: Node, req: VoteReq): Outcome<VoteResp> {
    if req.term < n.term then Outcome(n, [], VoteResp(n.term, false))
    else if req.term > n.term then
      var b := BecomeFollower(n, req.term, UNKNOWN_LEADER);
      if !b.reply then Outcome(n, [], VoteResp(n.term, false))
      else After(b.writes, VoteInTerm(b.node, req))
    else VoteInTerm(n, req)
  }

  /** One RequestVote answer of the election this node runs in its term. */
  function HandleVoteResp(n: Node, from: int, req: VoteReq, resp: VoteResp): Outcome<bool> {
    if resp.term > n.term then BecomeFollower(n, resp.term, UNKNOWN_LEADER)
    else if n.role != Candidate || n.term != req.term then Outcome(n, [], false)
    else if resp.term == req.term && resp.granted && from in n.cfg.peers && from !in n.granted then
      var n1 := n.(granted := n.granted + {from});
      if |n1.granted| + 1 >= Majority(n.cfg) then BecomeLeader(n1) else Outcome(n1, [], false)
    else Outcome(n, [], false)
  }

  // ----------------------------------------------------------- replication

  datatype Proposal = Accepted(index: nat) | BadCommand | NotLeader | Unavailable

  predicate ValidCommand(c: Command) {
    c.op != NOOP && ValidEntry(LogEntry(1, 0, c.op, c.key, c.value))
  }

  function Propose(n: Node, c: Command): Outcome<Proposal> {
    if !ValidCommand(c) then Outcome(n, [], BadCommand)
    else if n.role != Leader then Outcome(n, [], NotLeader)
    else if n.phase == Stopped then Outcome(n, [], Unavailable)
    else
      var e := LogEntry(LastIndex(n) + 1, n.term, c.op, c.key, c.value);
      Outcome(Do(n, AppendEntry(e)).(log := n.log + [e]), [AppendEntry(e)], Accepted(e.index))
  }

  datatype Plan = Refuse | Plan(cut: nat, add: Log)

  /** The smallest durable change that brings entries after prev into the log,
      examining the entry at position i of the request. */
  function PlanFrom(n: Node, prev: nat, entries: Log, i: nat): Plan
    requires i <= |entries|
    decreases |entries| - i
  {
    if i == |entries| then Plan(0, [])
    else
      var e := entries[i];
      if !ValidEntry(e) || e.index != prev + i + 1 then Refuse
      else if e.index <= LastIndex(n) then
        match EntryAt(n, e.index)
        case None => Refuse
        case Some(mine) =>
          if mine == e then PlanFrom(n, prev, entries, i + 1)
          else if mine.term == e.term || e.index <= n.commit then Refuse
          else Plan(e.index, entries[i..])
      else if e.index != LastIndex(n) + 1 then Refuse
      else Plan(0, entries[i..])
  }

  /** Carries out a plan: cut first, then append the batch. */
  function CutTo(n: Node, cut: nat): Outcome<bool> {
    if cut == 0 then Outcome(n, [], true) else
    var o := Offset(n, cut);
    if o.Some? && o.value <= |n.log| then
      Outcome(Do(n, CutLog(cut)).(log := n.log[..o.value]), [CutLog(cut)], true)
    else Outcome(Do(n, CutLog(cut)), [CutLog(cut)], false)
  }

  /** The log store refuses a batch with an invalid or out-of-order entry before writing any of it. */
  function AddAll(n: Node, es: Log): Outcome<bool> {
    if !Loadable(es) then Outcome(n, [], false)
    else Outcome(n.(log := n.log + es, disk := PerformAll(n.disk, Appends(es))), Appends(es), true)
  }

  /** Moves the commit index forward, never back. */
  function CommitUpTo(n: Node, c: nat): Outcome<bool> {
    if c > n.commit then SaveOr(n, Stable(n.term, n.votedFor, c, n.applied), n.(commit := c))
    else Outcome(n, [], true)
  }

  function AppendInTerm(n: Node, req: AppendReq): Outcome<AppendResp> {
    var n0 := n.(role := Follower, leader := req.leader);
    if !MatchesPrefix(n0, req.prevIndex, req.prevTerm) then Outcome(n0, [], AppendResp(n.term, false))
    else match PlanFrom(n0, req.prevIndex, req.entries, 0)
      case Refuse => Outcome(n0, [], AppendResp(n.term, false))
      case Plan(cut, add) =>
        var a := CutTo(n0, cut);
        if !a.reply then Outcome(a.node, a.writes, AppendResp(n.term, false)) else
        var b := AddAll(a.node, add);
        if !b.reply then Outcome(b.node, a.writes, AppendResp(n.term, false)) else
        var c := CommitUpTo(b.node, Min(req.commit, LastIndex(b.node)));
        Outcome(c.node, a.writes + b.writes + c.writes, AppendResp(n.term, c.reply))
  }

  function HandleAppend(n: Node, req: AppendReq): Outcome<AppendResp> {
    if req.term < n.term then Outcome(n, [], AppendResp(n.term, false))
    else if req.term > n.term then
      var b := BecomeFollower(n, req.term, req.leader);
      if !b.reply then Outcome(n, [], AppendResp(n.term, false))
      else After(b.writes, AppendInTerm(b.node, req))
    else AppendInTerm(n, req)
  }

  function BuildAppend(n: Node, peer: int): Option<AppendReq> {
    if n.role != Leader || peer !in n.next then None else
    var next := n.next[peer];
    if next <= n.meta.index || next > LastIndex(n) + 1 then None else
    var t, es := TermAt(n, next - 1), EntriesFrom(n, next);
    if t.None? || es.None? then None
    else Some(AppendReq(n.term, n.cfg.id, next - 1, t.value, es.value, n.commit))
  }

  /** How many peers are known to hold index. */
  function Matched(peers: seq<int>, m: map<int, nat>, index: nat): nat {
    if peers == [] then 0
    else (if peers[0] in m && m[peers[0]] >= index then 1 else 0) + Matched(peers[1..], m, index)
  }

  predicate Committable(n: Node, index: nat) {
    TermAt(n, index) == Some(n.term) && 1 + Matched(n.cfg.peers, n.match_, index) >= Majority(n.cfg)
  }

  /** The greatest committable index above the commit index up to i, else the commit index. */
  function CommitPoint(n: Node, i: nat): (c: nat)
    ensures c == n.commit || (n.commit < c <= i && Committable(n, c))
    ensures forall j :: c < j <= i ==> !Committable(n, j)
    decreases i
  {
    if i <= n.commit then n.commit
    else if Committable(n, i) then i
    else CommitPoint(n, i - 1)
  }

  function AdvanceCommit(n: Node): Outcome<bool> {
    var c := CommitPoint(n, LastIndex(n));
    if c == n.commit then Outcome(n, [], false)
    else CommitUpTo(n, c)
  }

  function At(m: map<int, nat>, p: int): nat {
    if p in m then m[p] else 0
  }

  /** True asks for a retry with an earlier prefix. */
  function HandleAppendResp(n: Node, peer: int, req: AppendReq, resp: AppendResp): Outcome<bool> {
    if resp.term > n.term then BecomeFollower(n, resp.term, UNKNOWN_LEADER).(reply := false)
    else if n.role != Leader || req.term != n.term || resp.term != n.term then Outcome(n, [], false)
    else if !resp.success then
      if At(n.next, peer) <= 1 then Outcome(n, [], false)
      else Outcome(n.(next := n.next[peer := n.next[peer] - 1]), [], true)
    else
      var m := Max(At(n.match_, peer), req.prevIndex + |req.entries|);
      var n1 := n.(match_ := n.match_[peer := m], next := n.next[peer := Max(At(n.next, peer), m + 1)]);
      AdvanceCommit(n1).(reply := false)
  }

  // ------------------------------------------------------------- snapshots

  /** stored is what the snapshot store returned before this lock was taken. */
  function BuildInstall(n: Node, peer: int, stored: Option<Snapshot>): Option<InstallReq> {
    if n.role != Leader || peer !in n.next || n.next[peer] > n.meta.index then None
    else if stored.None? || BoundaryOf(stored) != n.meta then None
    else Some(InstallReq(n.term, n.cfg.id, n.meta.index, n.meta.term, stored.value.data))
  }

  /** The local suffix to keep: only under a matching boundary entry. */
  function KeptSuffix(n: Node, req: InstallReq): Option<Log> {
    if TermAt(n, req.index) == Some(req.lastTerm) then EntriesFrom(n, req.index + 1) else None
  }

  /** Restores the image and publishes the boundary, once the snapshot is saved and the log cut. */
  function FinishInstall(n: Node, req: InstallReq, kept: Option<Log>): Outcome<Option<InstallResp>> {
    if !Restorable(req.data, n.cfg.limit) then Outcome(n, [], None)
    else
      var s := Stable(n.term, n.votedFor, Max(n.commit, req.index), Max(n.applied, req.index));
      var n' := n.(store := req.data.kv);
      if !StableOk(s) then Outcome(n', [], None)
      else Outcome(Do(n', SaveStable(s)).(log := if kept.Some? then kept.value else [],
                                          meta := Boundary(req.index, req.lastTerm),
                                          commit := s.commit, applied := s.applied),
                   [SaveStable(s)], Some(InstallResp(n.term)))
  }

  function InstallInTerm(n: Node, req: InstallReq): Outcome<Option<InstallResp>> {
    var n0 := n.(role := Follower, leader := req.leader);
    var snap := Snapshot(req.index, req.lastTerm, req.data);
    if !SnapshotOk(snap) then Outcome(n0, [], None)
    else if req.index <= n.applied then Outcome(n0, [], Some(InstallResp(n.term)))
    else
      var kept := KeptSuffix(n0, req);
      var cutting := if kept.Some? then [CompactLog(req.index)]
                     else if |n.log| > 0 then [CutLog(n.meta.index + 1)] else [];
      var ws := [SaveSnapshot(snap)] + cutting;
      After(ws, FinishInstall(n0.(disk := PerformAll(n0.disk, ws)), req, kept))
  }

  function HandleInstall(n: Node, req: InstallReq): Outcome<Option<InstallResp>> {
    if req.term < n.term then Outcome(n, [], Some(InstallResp(n.term)))
    else if req.term > n.term then
      var b := BecomeFollower(n, req.term, req.leader);
      if !b.reply then Outcome(n, [], None)
      else After(b.writes, InstallInTerm(b.node, req))
    else InstallInTerm(n, req)
  }

  function HandleInstallResp(n: Node, peer: int, req: InstallReq, resp: InstallResp): Outcome<bool> {
    if resp.term > n.term then BecomeFollower(n, resp.term, UNKNOWN_LEADER).(reply := false)
    else if n.role != Leader || req.term != n.term || resp.term != n.term then Outcome(n, [], false)
    else Outcome(n.(match_ := n.match_[peer := req.index], next := n.next[peer := req.index + 1]), [], true)
  }

  // -------------------------------------------------- the apply loop's steps

  function Pick(n: Node): Outcome<bool> {
    if n.phase != Idle || n.applied >= n.commit then Outcome(n, [], false)
    else match EntryAt(n, n.applied + 1)
      case None => Outcome(n.(phase := Stopped), [], false)
      case Some(e) => Outcome(n.(phase := Picked(e)), [], true)
  }

  function RunEntry(n: Node): Outcome<bool> {
    if !n.phase.Picked? then Outcome(n, [], false)
    else match TryApply(n.store, n.phase.entry, n.cfg.limit)
      case None => Outcome(n.(phase := Stopped), [], false)
      case Some(s) => Outcome(n.(store := s, phase := Applied(n.phase.entry)), [], true)
  }

  function Publish(n: Node): Outcome<bool> {
    if !n.phase.Applied? then Outcome(n, [], false)
    else
      var e := n.phase.entry;
      var stop := n.(phase := Stopped);
      if n.applied + 1 != e.index then Outcome(stop, [], false)
      else SaveOr(stop, Stable(n.term, n.votedFor, n.commit, e.index), n.(applied := e.index, phase := Idle))
  }

  /** The snapshot lock is taken and the boundary is read. */
  function Capture(n: Node): Outcome<bool> {
    if n.phase != Idle || n.applied - n.meta.index < n.cfg.threshold then Outcome(n, [], false)
    else match TermAt(n, n.applied)
      case None => Outcome(n, [], false)
      case Some(t) => Outcome(n.(phase := Captured(n.applied, t)), [], true)
  }

  function SaveImage(n: Node): Outcome<bool> {
    if !n.phase.Captured? then Outcome(n, [], false)
    else
      var snap := Snapshot(n.phase.index, n.phase.term, Image(n.store));
      if !SnapshotOk(snap) then Outcome(n.(phase := Idle), [], false)
      else Outcome(Do(n, SaveSnapshot(snap)).(phase := Saved(snap.index, snap.term)), [SaveSnapshot(snap)], true)
  }

  function PublishImage(n: Node): Outcome<bool> {
    if !n.phase.Saved? then Outcome(n, [], false)
    else
      var i, idle := n.phase.index, n.(phase := Idle);
      var kept := EntriesFrom(n, i + 1);
      if n.applied != i || n.meta.index >= i || n.commit < i || kept.None? then Outcome(idle, [], false)
      else Outcome(Do(idle, CompactLog(i)).(log := kept.value, meta := Boundary(i, n.phase.term)), [CompactLog(i)], true)
  }

  // ---------------------------------------------------------------- startup

  datatype Boot = Booted(node: Node, writes: seq<Write>) | Refused(writes: seq<Write>)

  /** Reconciles a durable log with a newer snapshot; None is a gap. */
  function Reconcile(log: Log, meta: Boundary): Option<seq<Write>> {
    if log == [] || log[0].index == meta.index + 1 then Some([])
    else if log[0].index > meta.index + 1 then None
    else
      var o := meta.index - log[0].index;
      if o < |log| && log[o].index == meta.index && log[o].term == meta.term then Some([CompactLog(meta.index)])
      else Some([CutLog(log[0].index)])
  }

  predicate FollowsBoundary(log: Log, meta: Boundary) {
    forall i :: 0 <= i < |log| ==> ValidEntry(log[i]) && log[i].index == meta.index + 1 + i
  }

  /** Applies the entries after position i of the log up to index commit. */
  function Replay(s: Store, log: Log, i: nat, count: nat, limit: nat): Option<Store>
    requires i <= count <= |log|
    decreases count - i
  {
    if i == count then Some(s)
    else match TryApply(s, log[i], limit)
      case None => None
      case Some(s') => Replay(s', log, i + 1, count, limit)
  }

  function BootLog(cfg: Config, d: Disk, meta: Boundary, image: Store, done: seq<Write>): Boot {
    var s := d.stable;
    if !StableOk(s) || !Loadable(d.log) || !FollowsBoundary(d.log, meta) then Refused(done)
    else if s.commit < meta.index || s.commit > LastIndexFor(d.log, meta) || s.applied < meta.index then Refused(done)
    else if s.commit - meta.index > |d.log| then Refused(done)
    else match Replay(image, d.log, 0, s.commit - meta.index, cfg.limit)
      case None => Refused(done)
      case Some(store) =>
        var n := Node(cfg, Follower, s.term, s.votedFor, UNKNOWN_LEADER, d.log, meta, s.commit, s.commit,
                      map[], map[], {}, store, Idle, d);
        if s.applied == s.commit then Booted(n, done)
        else
          var w := SaveStable(StableOf(n));
          Booted(Do(n, w), done + [w])
  }

  function Recover(cfg: Config, d: Disk): Boot {
    match d.snap
    case None => BootLog(cfg, d, Boundary(0, 0), map[], [])
    case Some(snap) =>
      var meta := BoundaryOf(d.snap);
      if !SnapshotOk(snap) || !StableOk(d.stable) || !Loadable(d.log) then Refused([])
      else match Reconcile(d.log, meta)
        case None => Refused([])
        case Some(cutting) =>
          if !Restorable(snap.data, cfg.limit) then Refused(cutting)
          else
            var s := d.stable.(commit := Max(d.stable.commit, meta.index), applied := Max(d.stable.applied, meta.index));
            var ws := cutting + [SaveStable(s)];
            BootLog(cfg, PerformAll(d, ws), meta, snap.data.kv, ws)
  }
}
