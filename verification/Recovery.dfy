/** Startup on an arbitrary disk: exactly which disks a node starts on, and
    exactly what it then is. */
module Recovery {
  import opened Entries
  import opened KvStore
  import opened Disk
  import opened Node
  import opened Relation

  // ------------------------------------------------ what a disk stands for

  /** The entries past an index, in their order. */
  function Past(log: Log, i: nat): Log {
    if log == [] then [] else (if log[0].index > i then [log[0]] else []) + Past(log[1..], i)
  }

  /** The log has the snapshot's last entry. */
  predicate Covers(log: Log, b: Boundary) {
    exists i :: 0 <= i < |log| && log[i].index == b.index && log[i].term == b.term
  }

  /** What follows the boundary: a log that reaches back to it counts only if
      it has the boundary entry. */
  function Rest(log: Log, b: Boundary): Log {
    if log != [] && log[0].index <= b.index && !Covers(log, b) then [] else Past(log, b.index)
  }

  /** Entries applied in order to a store. */
  function FoldFrom(s: Store, log: Log): Store {
    if log == [] then s else Apply(FoldFrom(s, log[..|log| - 1]), log[|log| - 1])
  }

  function ImageOf(snap: Option<Snapshot>): Store {
    if snap.Some? && snap.value.data.Image? then snap.value.data.kv else map[]
  }

  function CommitOf(d: Disk): nat {
    Max(d.stable.commit, BoundaryOf(d.snap).index)
  }

  /** Valid documents, a log without gaps that starts no later than right
      behind the snapshot, and a commit index within it whose entries the store accepts. */
  predicate Recoverable(d: Disk, limit: nat) {
    var b := BoundaryOf(d.snap);
    var rest := Rest(d.log, b);
    && NO_VOTE <= d.stable.votedFor && d.stable.applied <= d.stable.commit
    && (d.snap.Some? ==> (b.index == 0 ==> b.term == 0) && Restorable(d.snap.value.data, limit))
    && Loadable(d.log) && (d.log != [] ==> d.log[0].index <= b.index + 1)
    && CommitOf(d) - b.index <= |rest|
    && forall i :: 0 <= i < CommitOf(d) - b.index ==> |rest[i].value| <= limit
  }

  // ------------------------------------------------------------- log slices

  lemma {:induction false} FirstIn(log: Log, i: nat)
    requires Loadable(log) && log != []
    ensures FirstFrom(log, i) == if i <= log[0].index then 0 else if i <= log[0].index + |log| then i - log[0].index else |log|
  {
    if log[0].index < i && |log| > 1 { FirstIn(log[1..], i); }
  }

  lemma {:induction false} PastIs(log: Log, i: nat)
    requires Loadable(log)
    ensures Past(log, i) == Compact(log, i)
  {
    if log != [] {
      PastIs(log[1..], i);
      FirstIn(log, i + 1);
      if |log| > 1 { FirstIn(log[1..], i + 1); }
    }
  }

  lemma {:induction false} Consecutive(log: Log, i: nat)
    requires Loadable(log) && i < |log|
    ensures log[i].index == log[0].index + i
  {
    if i > 0 { Consecutive(log, i - 1); }
  }

  /** The rest as a slice. */
  function Sliced(log: Log, b: Boundary): Log {
    if log == [] || log[0].index > b.index then log
    else
      var o := b.index - log[0].index;
      if o < |log| && log[o].term == b.term then log[o + 1..] else []
  }

  lemma RestIs(log: Log, b: Boundary)
    requires Loadable(log)
    ensures Rest(log, b) == Sliced(log, b)
  {
    hide FirstFrom, ValidEntry;
    if log != [] {
      PastIs(log, b.index);
      FirstIn(log, b.index + 1);
      hide Past;
      forall i | 0 <= i < |log| ensures log[i].index == log[0].index + i { Consecutive(log, i); }
    }
  }

  lemma CutsAll(log: Log)
    requires Loadable(log) && log != []
    ensures Cut(log, log[0].index) == []
  {
    FirstIn(log, log[0].index);
    Consecutive(log, |log| - 1);
    assert ValidEntry(log[0]);
  }

  lemma CompactsTo(log: Log, i: nat)
    requires Loadable(log) && log != [] && log[0].index <= i < log[0].index + |log|
    ensures Compact(log, i) == log[i - log[0].index + 1..]
  {
    FirstIn(log, i + 1);
  }

  /** Reconciling leaves the rest, and fails only on a gap. */
  lemma Reconciles(d: Disk, b: Boundary)
    requires Loadable(d.log)
    ensures var r := Reconcile(d.log, b);
      && (r.Some? <==> (d.log != [] ==> d.log[0].index <= b.index + 1))
      && (r.Some? ==> PerformAll(d, r.value) == d.(log := Rest(d.log, b)))
  {
    hide Rest, Loadable, PerformAll, Cut, Compact;
    var log := d.log;
    RestIs(log, b);
    var r := Reconcile(log, b);
    if r.Some? {
      if r.value == [] {
        Nothing(d, []);
        assert [][..0] == r.value;
      } else {
        PerformOne(d, r.value[0]);
        CutsAll(log);
        if b.index - log[0].index < |log| {
          Consecutive(log, b.index - log[0].index);
          CompactsTo(log, b.index);
        }
      }
    }
  }

  lemma Follows(log: Log, b: Boundary)
    requires Loadable(log) && (log != [] ==> log[0].index <= b.index + 1)
    ensures Loadable(Rest(log, b)) && FollowsBoundary(Rest(log, b), b)
  {
    hide Rest, ValidEntry;
    RestIs(log, b);
    forall i | 0 <= i < |log| ensures log[i].index == log[0].index + i { Consecutive(log, i); }
  }

  // ------------------------------------------------------------------ replay

  lemma {:induction false} ReplayIff(s: Store, log: Log, i: nat, count: nat, limit: nat)
    requires i <= count <= |log| && forall j :: 0 <= j < |log| ==> ValidEntry(log[j])
    ensures var r := Replay(FoldFrom(s, log[..i]), log, i, count, limit);
      && (r.Some? <==> forall j :: i <= j < count ==> |log[j].value| <= limit)
      && (r.Some? ==> r.value == FoldFrom(s, log[..count]))
    decreases count - i
  {
    if i < count {
      hide Apply;
      assert log[..i + 1][..i] == log[..i];
      RefusesIff(FoldFrom(s, log[..i]), log[i], limit);
      ReplayIff(s, log, i + 1, count, limit);
    }
  }

  lemma NoFold(s: Store)
    ensures FoldFrom(s, []) == s
  {
  }

  // ---------------------------------------------------------------- startup

  /** The node a recoverable disk starts as. */
  predicate StartsAs(n: Node, cfg: Config, d: Disk) {
    var b := BoundaryOf(d.snap);
    && n.cfg == cfg && n.role == Follower && n.leader == UNKNOWN_LEADER && n.phase == Idle
    && n.term == d.stable.term && n.votedFor == d.stable.votedFor && n.commit == n.applied == CommitOf(d)
    && n.meta == b && n.log == n.disk.log == Rest(d.log, b) && n.disk.snap == d.snap && n.disk.stable == StableOf(n)
    && CommitOf(d) - b.index <= |n.log| && n.store == FoldFrom(ImageOf(d.snap), n.log[..CommitOf(d) - b.index])
  }

  lemma BootsLogIff(cfg: Config, d: Disk, b: Boundary, image: Store, ws: seq<Write>)
    requires Loadable(d.log) && FollowsBoundary(d.log, b) && StableOk(d.stable) && b.index <= d.stable.commit && b.index <= d.stable.applied
    ensures var r := BootLog(cfg, d, b, image, ws); var k := d.stable.commit - b.index;
      && (r.Booted? <==> k <= |d.log| && forall i :: 0 <= i < k ==> |d.log[i].value| <= cfg.limit)
      && (r.Booted? ==>
            r.node == Node(cfg, Follower, d.stable.term, d.stable.votedFor, UNKNOWN_LEADER, d.log, b, d.stable.commit, d.stable.commit, map[], map[], {},
                           FoldFrom(image, d.log[..k]), Idle, d.(stable := d.stable.(applied := d.stable.commit))))
  {
    hide Replay, FoldFrom, Loadable, ValidEntry;
    var k := d.stable.commit - b.index;
    assert d.log[..0] == [];
    NoFold(image);
    if k <= |d.log| { ReplayIff(image, d.log, 0, k, cfg.limit); }
  }

  /** A node starts on a disk if and only if the disk is recoverable, and then
      as the node the disk stands for. */
  lemma BootsIff(cfg: Config, d: Disk)
    ensures Recover(cfg, d).Booted? <==> Recoverable(d, cfg.limit)
    ensures Recover(cfg, d).Booted? ==> StartsAs(Recover(cfg, d).node, cfg, d)
  {
    hide BootLog, Loadable, FollowsBoundary, Restorable, Rest, Reconcile, PerformAll, FoldFrom;
    var b := BoundaryOf(d.snap);
    if Loadable(d.log) {
      Reconciles(d, b);
      if d.log != [] ==> d.log[0].index <= b.index + 1 {
        Follows(d.log, b);
        if d.snap.None? { BootsPlainIff(cfg, d); } else { BootsSnapIff(cfg, d); }
      } else {
        Gap(cfg, d);
      }
    } else {
      Unloadable(cfg, d);
    }
  }

  lemma Unloadable(cfg: Config, d: Disk)
    requires !Loadable(d.log)
    ensures !Recover(cfg, d).Booted?
  {
    hide Reconcile, Restorable, PerformAll, FollowsBoundary, Replay;
  }

  lemma Gap(cfg: Config, d: Disk)
    requires d.log != [] && d.log[0].index > BoundaryOf(d.snap).index + 1
    ensures !Recover(cfg, d).Booted?
  {
    hide PerformAll, Replay, Loadable;
  }

  lemma BootsPlainIff(cfg: Config, d: Disk)
    requires d.snap.None? && Loadable(d.log) && (d.log != [] ==> d.log[0].index <= 1) && FollowsBoundary(Rest(d.log, Boundary(0, 0)), Boundary(0, 0))
    ensures Recover(cfg, d).Booted? <==> Recoverable(d, cfg.limit)
    ensures Recover(cfg, d).Booted? ==> StartsAs(Recover(cfg, d).node, cfg, d)
  {
    hide Loadable, FollowsBoundary, FoldFrom, Rest, Replay;
    var b := Boundary(0, 0);
    Whole(d.log);
    if StableOk(d.stable) { BootsLogIff(cfg, d, b, map[], []); }
  }

  lemma Whole(log: Log)
    requires Loadable(log)
    ensures Rest(log, Boundary(0, 0)) == log
  {
    hide Rest;
    RestIs(log, Boundary(0, 0));
    if log != [] { assert ValidEntry(log[0]); }
  }

  lemma BootsSnapIff(cfg: Config, d: Disk)
    requires d.snap.Some? && Loadable(d.log) && (d.log != [] ==> d.log[0].index <= BoundaryOf(d.snap).index + 1)
    requires var b := BoundaryOf(d.snap); var r := Reconcile(d.log, b);
      && Loadable(Rest(d.log, b)) && FollowsBoundary(Rest(d.log, b), b) && r.Some? && PerformAll(d, r.value) == d.(log := Rest(d.log, b))
    ensures Recover(cfg, d).Booted? <==> Recoverable(d, cfg.limit)
    ensures Recover(cfg, d).Booted? ==> StartsAs(Recover(cfg, d).node, cfg, d)
  {
    hide Loadable, FollowsBoundary, FoldFrom, Rest, Reconcile, BootLog, PerformAll;
    var b := BoundaryOf(d.snap);
    var s := d.stable.(commit := Max(d.stable.commit, b.index), applied := Max(d.stable.applied, b.index));
    var cutting := Reconcile(d.log, b).value;
    var d' := d.(log := Rest(d.log, b), stable := s);
    PerformConcat(d, cutting, [SaveStable(s)]);
    PerformOne(d.(log := Rest(d.log, b)), SaveStable(s));
    if StableOk(d.stable) { BootsLogIff(cfg, d', b, ImageOf(d.snap), cutting + [SaveStable(s)]); }
  }
}
