/** What becomes of a command a leader has accepted. */
module Proposals {
  import opened Entries
  import opened Node
  import opened Relation
  import opened Cluster
  import opened Refinement
  import opened Safety
  import opened Progress
  import P = Protocol

  /** The entry a leader makes of a command. */
  function EntryFor(n: Node, c: Command): LogEntry {
    LogEntry(LastIndex(n) + 1, n.term, c.op, c.key, c.value)
  }

  /** A SET with a key, or a DELETE with a key and no value. */
  predicate WellFormed(c: Command) {
    c.key != "" && (c.op == SET || (c.op == DELETE && c.value == ""))
  }

  /** A leader whose apply loop is alive accepts exactly the well-formed
      commands; a refused command changes nothing. */
  lemma ProposeIff(n: Node, c: Command)
    ensures Propose(n, c).reply.Accepted? <==> n.role == Leader && n.phase != Stopped && WellFormed(c)
    ensures !Propose(n, c).reply.Accepted? ==> Propose(n, c).node == n && Propose(n, c).writes == []
  {
    hide LastIndex;
  }

  /** A durable entry is a leader's no-op or a well-formed command, at an index. */
  lemma ValidIff(e: LogEntry)
    ensures ValidEntry(e) <==> e.index != 0 && (e == LogEntry(e.index, e.term, NOOP, "", "") || WellFormed(Command(e.op, e.key, e.value)))
  {
  }

  /** An accepted command is the leader's new last entry, in memory and on disk,
      and everything before it is as it was. */
  lemma ProposalStored(run: seq<Cluster>, events: seq<Event>, limit: nat, i: nat, a: int, c: Command)
    requires IsRun(run, events, limit) && i < |run| && a in run[i].procs && run[i].procs[a].Up?
    requires Propose(run[i].procs[a].node, c).reply.Accepted?
    ensures var n := run[i].procs[a].node; var o := Propose(n, c);
      && o.reply == Accepted(LastIndex(n) + 1) && LastIndex(o.node) == LastIndex(n) + 1
      && EntryAt(o.node, LastIndex(n) + 1) == Some(EntryFor(n, c))
      && SameThrough(n, o.node, LastIndex(n)) && o.node.disk.log == o.node.log
  {
    hide IsRun, P.Inv, NetRel, CfgRel, RoleRel, PhaseRel, SameThrough, EntryAt, P.Anchored, P.Certified, ValidCommand, AllFit;
    var s := Reached(run, events, limit, i, a);
    var n := run[i].procs[a].node;
    var n', h, e := Propose(n, c).node, s.at[a].hist, EntryFor(n, c);
    MemberHistory(s, a);
    LastIs(n, h);
    hide Indexed, SuffixOf;
    OneLonger(n, n', h, e);
    LastIs(n', h + [e]);
    EntryIs(n', h + [e], |h| + 1);
    HistoriesSame(n, n', h, h + [e], |h|);
  }

  lemma OneLonger(n: Node, n': Node, h: Log, e: LogEntry)
    requires SuffixOf(n.log, n.meta, h) && Indexed(h) && n'.log == n.log + [e] && n'.meta == n.meta && e.index == |h| + 1
    ensures SuffixOf(n'.log, n'.meta, h + [e]) && Indexed(h + [e]) && (h + [e])[..|h|] == h[..|h|]
  {
    assert (h + [e])[n.meta.index..] == h[n.meta.index..] + [e];
  }

  /** A command accepted at an index is the entry any node holds there, now or
      later, if and only if that entry carries the proposing leader's term. */
  lemma ProposalOutcome(run: seq<Cluster>, events: seq<Event>, limit: nat, i: nat, j: nat, a: int, b: int, c: Command)
    requires IsRun(run, events, limit) && i < j < |run| && events[i] == Run(a, Client(c))
    requires a in run[i].procs && run[i].procs[a].Up? && Propose(run[i].procs[a].node, c).reply.Accepted?
    requires b in run[j].procs && Viewable(run[j].procs[b])
    requires EntryAt(View(run[j].procs[b]), LastIndex(run[i].procs[a].node) + 1).Some?
    ensures var n := run[i].procs[a].node; var there := EntryAt(View(run[j].procs[b]), LastIndex(n) + 1).value;
      there == EntryFor(n, c) <==> there.term == n.term
  {
    hide SameThrough, EntryAt, Recover, Propose, Init;
    assert Next(run[i], events[i], run[i + 1]);
    ProposalStored(run, events, limit, i, a, c);
    var n := run[i].procs[a].node;
    var n' := Propose(n, c).node;
    assert run[i + 1].procs[a] == Up(n');
    var y, x := View(run[j].procs[b]), LastIndex(n) + 1;
    if EntryAt(y, x).value.term == n.term {
      TermOfEntry(n', x);
      TermOfEntry(y, x);
      LogMatching(run, events, limit, i + 1, j, a, b, x);
      SameAt(n', y, x);
    }
  }

  lemma TermOfEntry(n: Node, x: nat)
    requires EntryAt(n, x).Some?
    ensures TermAt(n, x) == Some(EntryAt(n, x).value.term)
  {
  }

  lemma SameAt(a: Node, b: Node, x: nat)
    requires SameThrough(a, b, x) && EntryAt(a, x).Some? && EntryAt(b, x).Some?
    ensures EntryAt(a, x) == EntryAt(b, x)
  {
    hide EntryAt, TermAt;
  }
}
