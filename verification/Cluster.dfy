/** A cluster of nodes over a network that loses, delays, reorders and
    duplicates messages, where a node may crash between any two durable writes
    of anything it does, restart, and crash again while restarting. */
module Cluster {
  import opened Entries
  import opened Disk
  import opened Node

  datatype Proc = Up(node: Node) | Down(cfg: Config, disk: Disk)

  /** RPC requests and answers; an answer carries the request its caller still holds. */
  datatype Msg =
    | VoteAsk(to: int, vote: VoteReq)
    | VoteAnswer(from: int, to: int, vote: VoteReq, voteResp: VoteResp)
    | AppendAsk(to: int, append: AppendReq)
    | AppendAnswer(from: int, to: int, append: AppendReq, appendResp: AppendResp)
    | InstallAsk(to: int, install: InstallReq)
    | InstallAnswer(from: int, to: int, install: InstallReq, installResp: InstallResp)

  /** net holds every message ever sent, so any of them may arrive at any time,
      any number of times, or never. loaded holds snapshots read from disk
      outside the node lock on the way to a follower. */
  datatype Cluster = Cluster(procs: map<int, Proc>, net: set<Msg>, loaded: set<(int, Snapshot)>)

  /** What a running node may do next. */
  datatype Input =
    | Timeout
    | Alone
    | Client(command: Command)
    | SendAppend(peer: int)
    | SendInstall(peer: int, stored: Snapshot)
    | Receive(msg: Msg)
    | PickEntry
    | ApplyPicked
    | PublishApplied
    | CaptureBoundary
    | SaveCaptured
    | PublishSaved

  datatype Event =
    | Run(id: int, input: Input)
    | Load(id: int)
    | Crash(id: int, input: Input, writes: nat)
    | Start(id: int)
    | StartCrash(id: int, writes: nat)

  function Asks(n: Node, req: VoteReq): set<Msg> {
    set p | p in n.cfg.peers :: VoteAsk(p, req)
  }

  function OnMessage(n: Node, m: Msg): Outcome<set<Msg>> {
    match m
    case VoteAsk(_, req) =>
      var o := HandleVote(n, req);
      Outcome(o.node, o.writes, {VoteAnswer(n.cfg.id, req.candidate, req, o.reply)})
    case VoteAnswer(from, _, req, resp) =>
      var o := HandleVoteResp(n, from, req, resp);
      Outcome(o.node, o.writes, {})
    case AppendAsk(_, req) =>
      var o := HandleAppend(n, req);
      Outcome(o.node, o.writes, {AppendAnswer(n.cfg.id, req.leader, req, o.reply)})
    case AppendAnswer(from, _, req, resp) =>
      var o := HandleAppendResp(n, from, req, resp);
      Outcome(o.node, o.writes, {})
    case InstallAsk(_, req) =>
      var o := HandleInstall(n, req);
      Outcome(o.node, o.writes, if o.reply.Some? then {InstallAnswer(n.cfg.id, req.leader, req, o.reply.value)} else {})
    case InstallAnswer(from, _, req, resp) =>
      var o := HandleInstallResp(n, from, req, resp);
      Outcome(o.node, o.writes, {})
  }

  /** The node, writes and messages of one locked section. */
  function React(n: Node, i: Input): Outcome<set<Msg>> {
    match i
    case Timeout =>
      var o := StartElection(n);
      Outcome(o.node, o.writes, if o.reply.Some? then Asks(n, o.reply.value) else {})
    case Alone => var o := WinAlone(n); Outcome(o.node, o.writes, {})
    case Client(c) => var o := Propose(n, c); Outcome(o.node, o.writes, {})
    case SendAppend(p) =>
      var r := BuildAppend(n, p);
      Outcome(n, [], if r.Some? then {AppendAsk(p, r.value)} else {})
    case SendInstall(p, stored) =>
      var r := BuildInstall(n, p, Some(stored));
      Outcome(n, [], if r.Some? then {InstallAsk(p, r.value)} else {})
    case Receive(m) => OnMessage(n, m)
    case PickEntry => var o := Pick(n); Outcome(o.node, o.writes, {})
    case ApplyPicked => var o := RunEntry(n); Outcome(o.node, o.writes, {})
    case PublishApplied => var o := Publish(n); Outcome(o.node, o.writes, {})
    case CaptureBoundary => var o := Capture(n); Outcome(o.node, o.writes, {})
    case SaveCaptured => var o := SaveImage(n); Outcome(o.node, o.writes, {})
    case PublishSaved => var o := PublishImage(n); Outcome(o.node, o.writes, {})
  }

  /** Messages go to their addressee, loads to their node, clients pass the
      HTTP length check, and installs wait for a running snapshot. */
  predicate Enabled(c: Cluster, n: Node, i: Input) {
    match i
    case Client(command) => |command.value| <= n.cfg.limit
    case SendInstall(_, stored) => (n.cfg.id, stored) in c.loaded
    case Receive(m) =>
      && m in c.net && m.to == n.cfg.id
      && (m.InstallAsk? ==> !n.phase.Captured? && !n.phase.Saved?)
    case _ => true
  }

  predicate Next(c: Cluster, e: Event, c': Cluster) {
    && e.id in c.procs
    && var p := c.procs[e.id];
    match e
    case Run(id, i) =>
      && p.Up? && Enabled(c, p.node, i)
      && var o := React(p.node, i);
      c' == c.(procs := c.procs[id := Up(o.node)], net := c.net + o.reply)
    case Load(id) =>
      && p.Up? && p.node.disk.snap.Some?
      && c' == c.(loaded := c.loaded + {(id, p.node.disk.snap.value)})
    case Crash(id, i, k) =>
      && p.Up? && Enabled(c, p.node, i)
      && var o := React(p.node, i);
      && k <= |o.writes|
      && c' == c.(procs := c.procs[id := Down(p.node.cfg, PerformAll(p.node.disk, o.writes[..k]))])
    case Start(id) =>
      && p.Down?
      && var b := Recover(p.cfg, p.disk);
      && b.Booted?
      && c' == c.(procs := c.procs[id := Up(b.node)])
    case StartCrash(id, k) =>
      && p.Down?
      && var b := Recover(p.cfg, p.disk);
      && k <= |b.writes|
      && c' == c.(procs := c.procs[id := Down(p.cfg, PerformAll(p.disk, b.writes[..k]))])
  }

  /** Configurations the program accepts: distinct non-negative ids, the same
      membership everywhere, a positive snapshot threshold, one value limit. */
  predicate Configured(nodes: set<int>, limit: nat, id: int, cfg: Config) {
    && cfg.id == id && 0 <= id && cfg.limit == limit && 0 < cfg.threshold
    && (forall i, j :: 0 <= i < j < |cfg.peers| ==> cfg.peers[i] != cfg.peers[j])
    && (set p | p in cfg.peers) == nodes - {id}
  }

  /** Every node is about to start for the first time. */
  predicate Init(c: Cluster, limit: nat) {
    && c.net == {} && c.loaded == {}
    && forall id :: id in c.procs ==>
         c.procs[id].Down? && c.procs[id].disk == BLANK && Configured(c.procs.Keys, limit, id, c.procs[id].cfg)
  }

  /** run[i + 1] follows run[i] by events[i]. */
  predicate IsRun(run: seq<Cluster>, events: seq<Event>, limit: nat) {
    && |run| == |events| + 1 && Init(run[0], limit)
    && forall i :: 0 <= i < |events| ==> Next(run[i], events[i], run[i + 1])
  }
}
