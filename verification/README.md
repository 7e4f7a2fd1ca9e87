# Raft key-value store: verified model

A Dafny model of the Raft node of a replicated key-value store, with log
compaction, snapshot installation and crash recovery, and of the durable log
under it. The main results are statements about every run of a cluster of any
size, over a network that loses, delays, reorders and duplicates messages, in
which a node may crash between any two durable writes of anything it does,
including its own startup.

## How the project is built

| layer | files | what it holds |
|---|---|---|
| data | `Entries`, `KvStore`, `Disk` | log entries, the state machine and its images, the three durable registers and the writes that change them |
| node as a value | `Node` | every locked section of a node as a function to the next node, its durable writes in order, and its reply |
| node as it runs | `Raft` | the mutable `Raft` class with the program's loops; each method is proved to do exactly what its `Node` function says, write by write |
| storage | `Wal`, `LogStore`, `StableStore` | the byte-level record file, the durable log over it, the in-memory log it agrees with, the single-document stores |
| cluster | `Cluster` | nodes, messages, loads of snapshots from disk, crashes and restarts as one step relation |
| protocol | `Protocol`, `ProtocolSteps`, `ProtocolKeeps`, `ProtocolLogs` | the consensus argument on full histories, with quorums, ballots and acknowledgements, and the invariant each step keeps |
| refinement | `Relation`, `Elections`, `Replication`, `Snapshots`, `ApplyLoop`, `Startup`, `Refinement` | every event of the cluster, and every crash inside one, is a sequence of protocol steps |
| safety | `Safety`, `Progress`, `Cursors`, `Commitment`, `Transparency`, `Proposals`, `Hints` | what holds in every run, told on concrete nodes |
| behaviour | `Voting`, `Responses`, `Applying`, `Recovery`, `CatchUp` | when a vote is granted, a term adopted, an entry applied, a snapshot taken, a disk accepted, a follower caught up: each as an if-and-only-if |
| progress | `Traces`, `Campaigns`, `Liveness` | how any run can go on until any majority serves any command |
| counterexamples | `Scripts`, `Examples` | explicit runs that end where a promise fails |

`dafny verify dfyconfig.toml` checks everything.

A node's log holds only what compaction has left. Its full history exists in
the protocol layer, and the relation between the two says that the log is the
end of that history and that the remembered boundary carries the right term.
The protocol invariant is about *choosable* prefixes: a prefix of a leader's
log that ends in an entry of its own term and that every node of some quorum
either acknowledged or has not yet moved past.

Safety alone would hold of a cluster that never does anything. So each handler
also has a statement of when it acts, and `Liveness.AlwaysServes` puts them
together: whatever a run of two or more nodes has been through, any majority
can go on from there, alone, to a state in which one of them leads and has
committed and applied a given command.

## Assumptions

- A storage call completes, or the process crashes around it. A crash inside a
  batch append may keep any prefix of the batch, down to a torn byte
  (`Wal.AppendTorn`, `LogStore.CrashInAppend`).
- JSON, checksums, fsync and rename act as a faithful atomic register. The
  codec of log entries is a parameter that loses nothing.
- Terms and indexes are unbounded naturals; `Progress.Monotone` and
  `Safety.StateMachineSafety` give the ordering under which the program's
  unsigned subtractions cannot wrap.
- Text lengths are counted in characters where the program counts bytes.
- Clients pass the HTTP value-length check before a command is proposed
  (internal/server/server.go:108-111); it is the `Enabled` condition of a
  client event.
- All nodes have the same membership and value limit. The cluster size is
  arbitrary, where the configuration fixes three members
  (internal/config/config.go:77-79).
- One locked section is one step. An install holds the node lock throughout;
  an entry being applied beside it touches only the store, so it falls before
  or after the install's Restore, which is one of the two orders of the steps.

## Where the code and its documentation differ

- gyan/raft-design-decisions.md:30-31 says that `matchIndex` only moves
  forward. An InstallSnapshot answer assigns it unconditionally
  (internal/raft/raft.go:935). `Cursors.MatchIndexFallsIff` states exactly
  when a step of a run lowers it, `Examples.ReachedFall` gives such a run, and
  `Safety.MatchIndexSound` shows that what it says stays true.
- The comment at internal/raft/raft.go:1295-1297 says that a picked entry is
  always the next one. An install may overtake it, and the entry has then
  already been applied to the newer store. `Progress.ApplyExactIff` states
  exactly when the store is still right, `Examples.ReachedOvertaken` gives a
  run that leaves it wrong.
- Catch-up does not always progress. `CatchUp.CatchUpIff` states exactly when
  it does and `Examples.ReachedStall` gives a run after which exchanges alone
  never bring the follower level. What ends such a stall is a leader snapshot at
  or past the follower's boundary, which makes the pair reachable, or a later
  term: `CatchUp.LaterTermReaches` shows that a node still in an earlier term
  is always caught up.
- A result delivered for an index need not be about the command that was
  proposed there. `Proposals.ProposalOutcome` states exactly when the entry
  there is that command, `Examples.ReplacedProposal` gives a run in which the
  node that accepted it applies another.
- The leader counts itself, but only an AppendEntries answer advances the
  commit index (internal/raft/raft.go:915), so a single node, for which
  internal/raft/raft.go:684-695 has a branch, would never commit.
  `Commitment.CommitMaximalIff` shows that this is the only exception. The
  configuration admits three members only.

## Model

| member | source | states |
|---|---|---|
| Liveness.AlwaysServes | internal/raft/raft.go:440-1314 | From every reachable state of a cluster of two or more, any majority, with no step of anyone else, can reach a state in which one of it leads with a given well-formed command as its last entry, committed, applied and visible in its store |
| Liveness.ElectsAndServes | internal/raft/raft.go:675-966 | Without any restart, if the majority runs idle and its most recent member is not leading: that member is the one that comes to lead and serve |
| Liveness.Serves | internal/raft/raft.go:440-478 | A leader that can reach a majority serves a command: proposed, replicated, counted, committed, applied |
| Liveness.LevelsAll | internal/raft/raft.go:760-804 | The replication loop brings all of a set of reachable peers level and counts each for the whole log, leaving log, term and every other count alone |
| Liveness.RoundsRun | internal/raft/raft.go:760-804 | Any number of rounds of the replication loop between two running nodes is a part of a run that touches no one else |
| Liveness.CommitsLast | internal/raft/raft.go:943-966 | A leader whose last entry is of its term and counted on a majority has committed all it has |
| Campaigns.Elects | internal/raft/raft.go:675-746 | From every reachable state the most recent node of a running majority can be elected: it stands in a later term, all of the majority vote for it, it leads, and no one else is disturbed |
| Campaigns.Stands | internal/raft/raft.go:997-1007 | A node that does not lead can stand in any later term, and its requests then carry the end of its log |
| Campaigns.AllVote | internal/raft/raft.go:480-509 | Every node of a set that is asked in a later term by a candidate at least as recent grants its vote |
| Campaigns.AllCount | internal/raft/raft.go:719-741 | Counting granted answers makes a leader exactly when they are a majority |
| Traces.Restarts | internal/raft/raft.go:179-228 | Any process can stop and start again, and is then an idle follower |
| Voting.VoteGrantedIff | internal/raft/raft.go:480-509 | In every run a RequestVote of the voter's or a later term is answered in that term, and granted if and only if the vote is free or already the candidate's and the history it stood with ends in a later term than the voter's or holds all of it |
| Voting.HolderGranted | internal/raft/raft.go:492-508 | In every reachable state a candidate of the voter's or a later term, with the vote free, that has the voter's last entry by term holds the voter's whole history and is granted the vote |
| Voting.Electable | internal/raft/raft.go:1155-1161 | In every reachable state any set of running nodes has a member whose candidacy, in any later term, every one of them grants |
| Voting.LeadsIff | internal/raft/raft.go:719-741 | A newly counted grant of the running election makes a leader if and only if the counted voters and the candidate are a quorum; otherwise only the count changes |
| Voting.AloneIff | internal/raft/raft.go:684-695 | Without an answer only a candidate without peers comes to lead |
| Voting.StandsAndAsks | internal/raft/raft.go:675-717 | A node that times out stands in the next term with its own vote and asks every other node with the end of its own log |
| Responses.TermRule | internal/raft/raft.go:480-938 | Every message a node of a run may receive: a later term is adopted in memory and on disk as a follower with the vote cleared or cast for the asking candidate, an earlier one changes nothing and is refused, and every answer carries the term the node is then in |
| Responses.SameTermRule | internal/raft/raft.go:519-528 | In its own term a request from a leader makes the receiver its follower with its vote kept; a RequestVote leaves role and leader alone |
| Responses.InstallRefusedIff | internal/raft/raft.go:588-664 | For every snapshot of the node's or a later term, well formed or not: refused if and only if it has no bytes or no proper boundary, or is news and holds a pair the store would not accept; refused, it leaves log, boundary, indexes and store in memory as they were |
| Responses.AnswersCount | internal/raft/raft.go:889-938 | A success counts the peer for all that was sent and moves its cursor past it, a refusal moves the cursor back by one unless it is at the first index, a snapshot answer counts the peer for the snapshot; only a moved cursor is retried and no other peer changes |
| Responses.SendsIff | internal/raft/raft.go:810-884 | In every reachable state a leader has entries to send to a node exactly when its cursor is past the boundary, and a snapshot exactly when it is not; the request is the whole suffix from the cursor |
| CatchUp.StaleLeaderHalts | internal/raft/raft.go:893-896 | In every reachable state a leader whose follower is in a later term steps down to that term in its first round and keeps its log; the follower is unchanged |
| Applying.AppliesAll | internal/raft/raft.go:1266-1314 | In every reachable state in which the apply loop is idle, compacted or not, each turn applies exactly the next committed entry, and as many turns as are missing bring the store to the whole committed prefix |
| Applying.PublishIff | internal/raft/raft.go:1294-1306 | For every node: what was applied is published if and only if it is the very next entry and committed; otherwise the loop stops where it was |
| Applying.SnapshotsIff | internal/raft/raft.go:1333-1396 | In every such state a local snapshot is taken if and only if the threshold of entries is applied past the boundary; then the image of the applied prefix is on disk and every entry after it is kept |
| Hints.LeaderHint | internal/node/node.go:127-140 | In every reachable state the leader a node knows is the one elected in its term, a leader knows itself, and two nodes of a term know no two leaders |
| Recovery.BootsIff | internal/raft/raft.go:179-328 | For every disk whatever: a node starts if and only if the documents are valid, the log has no gap and starts no later than right behind the snapshot, and the commit index lies within it over entries the store accepts; and then as exactly the node the disk stands for |
| Recovery.Reconciles | internal/raft/raft.go:1073-1089 | For every log: reconciling fails exactly on a gap, and otherwise leaves what follows the boundary entry, or nothing if the log reaches back without having it |
| Recovery.ReplayIff | internal/raft/raft.go:302-316 | Replay succeeds if and only if every value fits, and gives the fold |
| Transparency.PlanIff | internal/raft/raft.go:1171-1203 | For every request whatever: the first entry not already in place decides; it is carried out from there if it continues the log or conflicts by term above the commit index, and refused otherwise |
| Progress.KeptIff | internal/raft/raft.go:612-619 | The suffix kept by an install is there if and only if the local entry at the boundary has its term |
| Proposals.ProposeIff | internal/raft/raft.go:440-457 | A command is accepted if and only if the node leads, its apply loop is alive, and the command is a SET with a key or a DELETE with a key and no value; a refused one changes nothing |
| Proposals.ValidIff | internal/raft/log.go:47-71 | A durable entry is a leader's no-op or a well-formed command, at a positive index |
| Safety.StateMachineSafety | internal/raft/raft.go:480-673 | In every run one committed sequence, growing with time, covers every node running or crashed: entries up to the commit index, snapshots on disk and in messages, index ordering, the disk mirroring memory, and the store in every phase of the apply loop: the applied prefix, one entry ahead of it, or that prefix with one of its own entries applied again |
| Safety.CommittedAgree | internal/raft/raft.go:943-966 | Any two nodes at any two moments agree on every index both committed, seen through compaction |
| Safety.ElectionSafety | internal/raft/raft.go:675-746 | A term never has two leaders, across crashes and restarts |
| Safety.LeaderCompleteness | internal/raft/raft.go:1155-1161 | Whenever it led, before or after the commit, a later term's leader holds everything any node of an earlier term commits, and more; a leader of the same term holds what had been committed by then |
| Safety.LogMatching | internal/raft/raft.go:1163-1166 | Equal terms at an index mean equal logs up to it, for any two nodes at any two moments, including at a snapshot boundary |
| Safety.MatchIndexSound | internal/raft/raft.go:889-938 | What a leader counted for a peer stays on that peer while the peer is in the leader's term, across the peer's crashes |
| Refinement.RunRefines | internal/raft/raft.go:480-1396 | Every run of the cluster is matched step by step by a run of the protocol that keeps its invariant |
| Refinement.StepRefines | internal/raft/raft.go:480-1396 | Each event, each crash after any number of its durable writes, and each restart is a protocol move |
| Progress.Monotone | internal/raft/raft.go:655-664 | No node's term, commit index, applied index or snapshot boundary ever goes back, through crashes and restarts |
| Progress.RestartSafety | internal/raft/raft.go:179-328 | From any disk a run can leave, startup succeeds; crashing after any of its own writes and starting again gives the same node |
| Progress.InstallSafety | internal/raft/raft.go:570-673 | An install of the follower's or a later term keeps the whole history if the local entry at the boundary has the snapshot's term, and otherwise drops the log, in which nothing at or past the boundary was committed; store, applied index and boundary become the snapshot's and the commit index ends within the log |
| Progress.CommitWithinEntries | internal/raft/raft.go:856-884 | Every AppendEntries ever sent reaches at least to the commit index it announces |
| Progress.RefusalsUnreachable | internal/raft/raft.go:511-565 | A leader's request of the follower's or a later term that passes the prefix check is never refused by the plan; it is acknowledged, the follower commits exactly what was announced, its entries are in place with nothing before them touched, and what followed them survives if and only if all were there already |
| Progress.ApplyExactIff | internal/raft/raft.go:1266-1314 | Applying a picked entry leaves the store exact if and only if it is still the next entry or its effect is already there |
| Examples.ReachedOvertaken | internal/raft/raft.go:1285-1301 | An explicit run, without duplicated or reordered messages, after which two nodes have applied index 3 and hold a=2 and a=1 |
| Cursors.MatchIndexFallsIff | internal/raft/raft.go:889-938 | While a node leads, one step of a run lowers matchIndex of a peer if and only if it receives that peer's current-term answer to a snapshot older than what was counted |
| Cursors.MatchIndexGrows | internal/raft/raft.go:889-938 | Over any stretch of leading without such an answer matchIndex only grows |
| Examples.ReachedFall | internal/raft/raft.go:935-936 | An explicit run whose last step lowers a leader's matchIndex of a peer from 2 to 1 |
| Cursors.CursorsInRange | internal/raft/raft.go:862-867 | In every reachable state a leader has a cursor for each peer, between 1 and one past its last index |
| Cursors.FreshCursors | internal/raft/raft.go:1012-1029 | A new leader's log is the old one ended by the no-op of its term; every cursor starts just behind it and nothing is counted |
| CatchUp.CatchUpIff | internal/raft/raft.go:760-804 | With reliable delivery, from any reachable state, the loop ends in acceptance if and only if the cursor is past the follower's boundary or the leader's snapshot covers it; the logs are then level after log length plus three rounds and at most one snapshot. Otherwise neither log changes, so the two ever become level if and only if that condition holds or they are level already |
| CatchUp.ElectedCursorReaches | internal/raft/raft.go:1012-1029 | The cursors an election sets reach every follower that holds nothing of the new term, whatever the leader appends, until it answers; a cursor past the last entry reaches everyone |
| CatchUp.LaterTermReaches | internal/raft/raft.go:760-804 | In every reachable state a leader reaches every node still in an earlier term, so catching it up always ends |
| Cursors.UnmovedCursors | internal/raft/raft.go:889-938 | In every reachable state the entry before the cursor of a peer yet to answer in the term is the leader's own |
| CatchUp.CatchesUp | internal/raft/raft.go:889-919 | The bound on the rounds, by the distance of the cursor and whether the follower holds the leader's boundary entry |
| CatchUp.Stuck | internal/raft/raft.go:1163-1166 | A follower that compacted past cursor and snapshot rejects every round; neither log changes |
| Examples.ReachedStall | internal/raft/raft.go:1163-1166 | An explicit run with one lost answer, after which no number of exchanges brings a follower that compacted its first entry to the leader's last index |
| CatchUp.NoLonger | internal/raft/raft.go:1012-1018 | A node in the leader's term that holds the leader's log holds nothing more: the no-op forces stale suffixes out |
| CatchUp.ReplicateToPeer | internal/raft/raft.go:760-804 | The replication loop on any two mutable nodes, stopped by its deadline after any number of rounds, leaves exactly the nodes and outcome of that many rounds |
| CatchUp.ExchangeAppend | internal/raft/raft.go:787-797 | One AppendEntries exchange of the loop does to both nodes what one round says |
| CatchUp.ExchangeSnapshot | internal/raft/raft.go:773-786 | One InstallSnapshot exchange of the loop does to both nodes what one round says |
| Transparency.SameVotes | internal/raft/raft.go:480-509 | Nodes with one history but different compaction answer every RequestVote alike, with the same writes |
| Transparency.SameAppends | internal/raft/raft.go:511-565 | They answer every AppendEntries at or after both boundaries alike, whatever its sender put in it, make the same durable writes and end with one history |
| Transparency.PlanSound | internal/raft/raft.go:1171-1203 | Whatever a request holds, a plan cuts only above the commit index and appends right where the log ends |
| Proposals.ProposalStored | internal/raft/raft.go:440-478 | An accepted command is the leader's new last entry in memory and on disk, with everything before it unchanged |
| Proposals.ProposalOutcome | internal/raft/raft.go:467-475 | The entry any node later holds at that index is the command if and only if it carries the proposing term |
| Examples.ReplacedProposal | internal/raft/raft.go:471-473 | An explicit run in which a leader accepts SET a 1 at index 2 and ends by applying SET a 2 at index 2 itself |
| ProtocolLogs.WinFresh | internal/raft/raft.go:997-1007 | A candidate with a quorum of votes is the first leader of its term |
| ProtocolLogs.WinHolds | internal/raft/raft.go:1012-1029 | It holds every prefix that an earlier term could still choose |
| ProtocolLogs.WinKeeps | internal/raft/raft.go:1012-1029 | Winning keeps the protocol invariant |
| ProtocolLogs.ExtendKeeps | internal/raft/raft.go:459-471 | A leader's append keeps it |
| ProtocolLogs.AdoptKeeps | internal/raft/raft.go:537-554 | Conflict truncation and append, cut at any point, keep it |
| ProtocolKeeps.RecentHolds | internal/raft/raft.go:1155-1161 | A candidate at least as recent as a voter holds every still-choosable prefix the voter acknowledged |
| ProtocolKeeps.CastKeeps | internal/raft/raft.go:492-508 | Granting a vote keeps the protocol invariant |
| ProtocolKeeps.StandKeeps | internal/raft/raft.go:997-1007 | Standing for election keeps it |
| ProtocolKeeps.BumpKeeps | internal/raft/raft.go:1033-1047 | Adopting a later term keeps it |
| ProtocolKeeps.AckKeeps | internal/raft/raft.go:564 | Acknowledging a prefix keeps it |
| ProtocolKeeps.CommitKeeps | internal/raft/raft.go:556-562 | Committing a prefix chosen by a quorum keeps it |
| ProtocolSteps.Matching | internal/raft/raft.go:1163-1166 | Logs of the cluster with one term at an index are equal up to it |
| ProtocolSteps.CertifiedInLead | internal/raft/raft.go:943-966 | A prefix chosen up to a term is in the log of that term's leader and of every later one |
| Protocol.QuorumsMeet | internal/raft/raft.go:993-995 | Two majorities share a node |
| Elections.MajorityIsQuorum | internal/raft/raft.go:993-995 | Peers and this node reach the configured majority if and only if they are a quorum |
| Elections.Winning | internal/raft/raft.go:730-740 | Becoming leader on counted votes is a protocol win, and no one else led the term |
| Elections.NewVote | internal/raft/raft.go:499-506 | A persisted new vote is a protocol ballot |
| Replication.BuiltAppend | internal/raft/raft.go:856-884 | A built request carries the leader's whole suffix |
| Replication.PlanShape | internal/raft/raft.go:1171-1203 | On a leader's request the plan appends or cuts exactly where the two logs part |
| Replication.AppendAccepted | internal/raft/raft.go:530-564 | A request that passes the prefix check is carried out, acknowledged and committed as protocol steps |
| Replication.AppendCrashed | internal/raft/raft.go:537-561 | After a crash between any two writes of the handler the disk still stands for a protocol member |
| Replication.MajorityChooses | internal/raft/raft.go:943-966 | A current-term entry counted on a majority is chosen |
| Commitment.CommitMaximalIff | internal/raft/raft.go:889-966 | In every reachable state a leader has committed every index it may commit if and only if it has peers; without peers nothing ever advances the commit index |
| Commitment.SoloRun | internal/raft/raft.go:684-695 | In every run of a cluster of one nothing is ever committed, applied, snapshotted or sent |
| Snapshots.BuiltInstall | internal/raft/raft.go:810-851 | Every snapshot a leader sends is the image of its committed prefix |
| Snapshots.InstallNew | internal/raft/raft.go:606-673 | Installing keeps the relation, acknowledges the boundary and writes snapshot, log and stable state in that order |
| Snapshots.InstallCrashed | internal/raft/raft.go:617-660 | After any number of those writes the disk stands for the same member |
| ApplyLoop.Publishing | internal/raft/raft.go:1294-1306 | Publishing an applied entry keeps the store equal to the fold of the applied prefix |
| ApplyLoop.SavingImage | internal/raft/raft.go:1352-1364 | A saved local snapshot is the image of a committed prefix |
| ApplyLoop.PublishingImage | internal/raft/raft.go:1366-1395 | Compacting through a saved snapshot keeps the history |
| Startup.Recovers | internal/raft/raft.go:179-328 | A related disk always boots, into exactly the member it stands for, with the store folded from the committed prefix |
| Startup.RecoveryCrashed | internal/raft/raft.go:1073-1089 | After any number of startup's own writes the disk stands for the same member |
| Relation.TermIs | internal/raft/raft.go:1130-1139 | Term lookup sees through compaction down to the boundary and nothing below it |
| Relation.EntryIs | internal/raft/raft.go:1109-1126 | Entry lookup by absolute index, present exactly above the boundary |
| Relation.EntriesAre | internal/raft/raft.go:1141-1153 | The suffix from an index is the history's |
| Relation.LastIs | internal/raft/raft.go:1049-1053 | Last index and term are the history's |
| Node.CommitPoint | internal/raft/raft.go:943-966 | The commit rule finds the greatest committable index, and only a committable one |
| Node.Uniform | internal/raft/raft.go:1022-1027 | One cursor value for exactly the configured peers |
| RaftNode.Raft.HandleRequestVote | internal/raft/raft.go:480-509 | Node, ordered writes and reply are those of the vote function, whose rule is `Voting.VoteGrantedIff` and `Responses.TermRule` |
| RaftNode.Raft.HandleAppendEntries | internal/raft/raft.go:511-565 | Node, ordered writes and reply are those of the append function, whose rule is `Progress.RefusalsUnreachable`, `Transparency.PlanIff` and `Responses.TermRule` |
| RaftNode.Raft.AcceptEntries | internal/raft/raft.go:530-564 | Prefix check, plan, cut, append, commit, each write before its field |
| RaftNode.Raft.ReplicationPlan | internal/raft/raft.go:1171-1203 | The scan loop computes the plan function |
| RaftNode.Raft.HandleInstallSnapshot | internal/raft/raft.go:570-673 | Node, ordered writes and reply are those of the install function, whose rule is `Progress.InstallSafety` and `Responses.TermRule` |
| RaftNode.Raft.InstallImage | internal/raft/raft.go:588-664 | Validation, the already-applied shortcut, and the durable install order |
| RaftNode.Raft.StartElection | internal/raft/raft.go:675-683 | Candidacy is persisted before the request is built |
| RaftNode.Raft.HandleVoteResponse | internal/raft/raft.go:719-741 | One vote answer: step down, ignore, count, or lead |
| RaftNode.Raft.Propose | internal/raft/raft.go:440-478 | The four outcomes of a proposal and the entry appended |
| RaftNode.Raft.BuildAppendEntries | internal/raft/raft.go:856-884 | The request for one peer, or none |
| RaftNode.Raft.NeedsSnapshot | internal/raft/raft.go:811-825 | The first look: term and boundary when the peer is behind the boundary |
| RaftNode.Raft.BuildInstallSnapshot | internal/raft/raft.go:826-851 | The second look: a request exactly when the loaded snapshot, the role, the term and the boundary still fit, and then the one the node would build now |
| RaftNode.Raft.HandleAppendEntriesResponse | internal/raft/raft.go:889-919 | The answer function in place: `Responses.AnswersCount` and `Commitment.CommitMaximalIff` say what it does |
| RaftNode.Raft.HandleInstallSnapshotResponse | internal/raft/raft.go:924-938 | Match and cursor after a snapshot |
| RaftNode.Raft.AdvanceCommitIndex | internal/raft/raft.go:943-966 | The downward search loop commits exactly the commit point |
| RaftNode.Raft.CountMatched | internal/raft/raft.go:950-954 | The counting loop counts the peers at or past an index |
| RaftNode.Raft.BecomeFollower | internal/raft/raft.go:1033-1047 | A later term is persisted with no vote before it is used |
| RaftNode.Raft.BecomeCandidate | internal/raft/raft.go:997-1007 | Term and own vote are persisted before they are used |
| RaftNode.Raft.BecomeLeader | internal/raft/raft.go:1012-1029 | The no-op is durable before the role changes; the cursor loop |
| RaftNode.Raft.SaveStableValues | internal/raft/raft.go:1209-1216 | Saved exactly when the document is valid |
| RaftNode.Raft.PickNext | internal/raft/raft.go:1268-1283 | Choosing the next committed entry; with the next two sections it applies exactly that entry (`Applying.AppliesAll`) |
| RaftNode.Raft.ApplyPicked | internal/raft/raft.go:1285-1292 | Applying it outside the node lock |
| RaftNode.Raft.PublishApplied | internal/raft/raft.go:1294-1306 | The order check, then the applied index persisted before it is published |
| RaftNode.Raft.CaptureBoundary | internal/raft/raft.go:1337-1350 | The threshold test and the boundary of a local snapshot |
| RaftNode.Raft.SaveCaptured | internal/raft/raft.go:1352-1364 | The image saved under that boundary |
| RaftNode.Raft.PublishSaved | internal/raft/raft.go:1366-1395 | The recheck, then compaction before the boundary moves |
| RaftNode.Open | internal/raft/raft.go:179-228 | Starting on a disk boots or refuses as the recovery function says, with its writes in order |
| RaftNode.OpenLog | internal/raft/raft.go:233-328 | The common constructor: range checks, replay and the final save |
| RaftNode.RecoverLog | internal/raft/raft.go:1073-1089 | Keep, compact, drop or refuse a log against a snapshot |
| RaftNode.ValidateLogSuffix | internal/raft/raft.go:1055-1067 | Accepts exactly the valid logs that follow the boundary without a gap |
| RaftNode.ReplayCommitted | internal/raft/raft.go:302-316 | The replay loop folds the committed suffix or stops at a refused entry |
| Wal.TornTail | internal/wal/wal.go:62-110 | Any byte cut of an encoding reads as the whole records before the cut and a tail that never looks corrupt |
| Wal.ReadsOnce | internal/wal/wal.go:77-109 | A file reads in exactly one way |
| Wal.AppendTorn | internal/wal/wal.go:41-60 | A crash any number of bytes into an append keeps the old records and exactly the records of the batch that fit whole |
| Wal.Fitting | internal/wal/wal.go:62-110 | The greatest number of whole records in that many bytes |
| Wal.CrashAndAppend | internal/wal/wal.go:64-115 | Cut at any byte, replay, append, replay: exactly the records that fit whole before the cut, then the new ones |
| Wal.WAL.AppendBatch | internal/wal/wal.go:41-60 | The file grows by the frames up to the first invalid record; success exactly when all are valid and the file is open |
| Wal.WAL.Replay | internal/wal/wal.go:64-115 | Returns the records the file reads as and leaves their encoding; fails exactly on a closed file or a corrupt size, changing nothing |
| Wal.WAL.Replace | internal/wal/wal.go:120-171 | Rewrites the whole file or leaves it |
| Wal.WAL.WriteRecord | internal/wal/wal.go:183-194 | One frame, or nothing for an invalid size |
| Wal.HeaderUnique | internal/wal/wal.go:187-188 | Decoding then encoding a four-byte header is the identity |
| Wal.HeaderOrder | internal/wal/wal.go:187-188 | Headers sort byte by byte as the sizes do, so the most significant byte comes first |
| Wal.Header | internal/wal/wal.go:187-188 | Encoding then decoding a size is the identity |
| LogStore.FileLogStore.Append | internal/raft/log.go:98-112 | Refuses a bad batch whole; otherwise the file holds the old log and the batch |
| LogStore.FileLogStore.EncodeEntries | internal/raft/log.go:211-227 | The batch as records, or nothing when it is not a run of valid consecutive entries |
| LogStore.FileLogStore.Load | internal/raft/log.go:120-140 | A file that keeps a log, torn tail or not, loads it and then holds exactly it |
| LogStore.FileLogStore.Decode | internal/raft/log.go:125-138 | Succeeds exactly when the records are a log |
| LogStore.FileLogStore.TruncateFrom | internal/raft/log.go:144-168 | The file then holds the cut log; refused exactly for index 0 or past the end |
| LogStore.FileLogStore.CompactThrough | internal/raft/log.go:173-188 | The file then holds the compacted log |
| LogStore.FileLogStore.ReplaceAll | internal/raft/log.go:190-209 | The file then holds the given log, or is unchanged |
| LogStore.MemoryLogStore.Append | internal/raft/memory_log.go:26-31 | The entries grow by the batch |
| LogStore.MemoryLogStore.TruncateFrom | internal/raft/memory_log.go:33-55 | The same cut and the same refusals on a plain sequence |
| LogStore.MemoryLogStore.CompactThrough | internal/raft/memory_log.go:57-69 | The same compaction on a plain sequence |
| LogStore.RunBoth | internal/raft/log.go:98-209 | Any sequence of appends, truncations, compactions, reloads and appends torn at any byte gets the same answers and the same log from both stores |
| LogStore.CrashAppending | internal/raft/log.go:98-140 | After a process dies at any byte of an append, the next one loads the old log and exactly the entries that fit whole |
| LogStore.CrashInAppend | internal/raft/log.go:98-112 | A crash after any byte of an append is a crash between two entry writes of the disk model |
| LogStore.OpsAreWrites | internal/raft/log.go:144-188 | The store operations are the disk model's log writes |
| LogStore.FindFrom | internal/raft/memory_log.go:46-52 | The position loop finds the first entry at or past an index |
| StableStore.FileStableStore.Load | internal/raft/stable_state.go:42-73 | A missing file is the blank state; an invalid document is refused |
| StableStore.FileStableStore.Save | internal/raft/stable_state.go:75-123 | Replaces the document exactly when it is valid |
| StableStore.SaveAllThenLoad | internal/raft/stable_state.go:42-123 | After any saves a fresh store loads, and loads the last accepted document |
| StableStore.SnapshotStore.Save | internal/snapshot/snapshot.go:116-173 | Replaces the snapshot, with version and checksum, exactly when it is valid |
| StableStore.SnapshotStore.Load | internal/snapshot/snapshot.go:68-112 | A missing snapshot is no error; an undecodable one, another version, an invalid one or a checksum mismatch is |
| StableStore.SaveThenAlter | internal/snapshot/snapshot.go:68-187 | A saved snapshot loads back, and is refused once its content is altered to one of another digest |
| KvStore.MemoryStore.Set | internal/store/memory.go:42-56 | Refuses an empty key and an over-long value, else binds the key |
| KvStore.MemoryStore.Delete | internal/store/memory.go:58-63 | Unbinds the key |
| KvStore.MemoryStore.Restore | internal/store/memory.go:81-99 | Replaces the whole map or, if any pair is invalid, changes nothing |
| KvStore.MemoryStore.ApplyEntry | internal/node/node.go:173-184 | Dispatch of an entry to the store, refusing an unknown operation; its effect is `KvStore.OnlyItsKey` and its refusals `KvStore.RefusesIff` |
| KvStore.FoldHolds | internal/store/memory.go:42-63 | The store binds a key to a value if and only if the last entry that names the key is the SET of that value |
| KvStore.OnlyItsKey | internal/node/node.go:173-184 | An entry touches no key but its own: SET binds it, DELETE unbinds it |
| KvStore.RefusesIff | internal/store/memory.go:42-56 | Applying is refused exactly for a SET with an empty key or an over-long value and for an unknown operation |
| KvStore.RestorableIff | internal/store/memory.go:81-99 | The images Restore accepts are exactly the folds of accepted entries |
| KvStore.FoldRestorable | internal/store/memory.go:81-99 | Every image of accepted entries can be restored |

## Left out

- Timers, contexts, goroutine scheduling and channel signals: replaced by steps that may happen at any time; no real-time claim is made.
- Client results (`pendingResults`) and request deduplication: the code does not tie a result to a term; `Proposals.ProposalOutcome` says what an index means instead.
- Storage calls that return an error after a partial effect inside a node: outside the crash model. The record file and the log store do model a batch that stops part way.
- The moment between the apply loop failing and its error being recorded: the model records both at once.
- gRPC transport, protobuf conversion, HTTP server, dashboard, configuration files and node wiring: plumbing around the core.
- JSON, SHA-256 and temporary-file details of the stable and snapshot documents: an atomic register, with the digest a parameter.
- `snapshotErr` reporting and the disabled-snapshot mode of `NewWithLog`: they would only add easy members.
- Linearizable reads and membership change: the program does not provide them.
