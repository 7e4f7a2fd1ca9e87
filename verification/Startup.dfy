/** Startup: from any disk a crash can leave, recovery succeeds, loses nothing
    committed, rebuilds the store from the committed prefix, and may itself
    crash and run again. */
module Startup {
  import opened Entries
  import opened KvStore
  import opened Disk
  import opened Node
  import opened Relation
  import P = Protocol

  /** The node every recovery of a disk ends in. */
  function Fresh(cfg: Config, snap: Option<Snapshot>, m: P.Member, done: Log): Node
    requires BoundaryOf(snap).index <= |m.hist| && m.commit <= |done|
  {
    var b := BoundaryOf(snap);
    var rest := m.hist[b.index..];
    Node(cfg, Follower, m.term, m.vote, UNKNOWN_LEADER, rest, b, m.commit, m.commit, map[], map[], {},
         Fold(done[..m.commit]), Idle, Disk(Stable(m.term, m.vote, m.commit, m.commit), rest, snap))
  }

  predicate Cutting(cw: seq<Write>) {
    cw == [] || (|cw| == 1 && (cw[0].CompactLog? || cw[0].CutLog?))
  }

  lemma CutOnlyLog(d: Disk, cw: seq<Write>)
    requires Cutting(cw)
    ensures PerformAll(d, cw) == d.(log := PerformAll(BLANK.(log := d.log), cw).log)
  {
    hide Compact, Cut;
    if cw != [] {
      assert cw == [cw[0]];
      PerformOne(d, cw[0]);
      PerformOne(BLANK.(log := d.log), cw[0]);
    }
  }

  /** Replaying a committed stretch of history extends the fold. */
  lemma {:induction false} ReplayFolds(h: Log, b: nat, i: nat, count: nat, limit: nat)
    requires b <= |h| && i <= count <= |h| - b && AllFit(h, limit)
    ensures Replay(Fold(h[..b + i]), h[b..], i, count, limit) == Some(Fold(h[..b + count]))
    decreases count - i
  {
    if i < count {
      assert h[b..][i] == h[b + i] && Fits(h[b + i], limit);
      FoldStep(h, b + i);
      ReplayFolds(h, b, i + 1, count, limit);
    }
  }

  /** The second half of startup, on a disk whose log already follows the boundary. */
  lemma BootsLog(cfg: Config, d: Disk, h: Log, b: Boundary, limit: nat, ws: seq<Write>)
    requires Indexed(h) && AllFit(h, limit) && b.index <= d.stable.commit <= |h| && d.log == h[b.index..]
    requires StableOk(d.stable) && b.index <= d.stable.applied && cfg.limit == limit
    ensures var st := d.stable;
      var node := Node(cfg, Follower, st.term, st.votedFor, UNKNOWN_LEADER, d.log, b, st.commit, st.commit, map[], map[], {},
                       Fold(h[..st.commit]), Idle, d.(stable := st.(applied := st.commit)));
      BootLog(cfg, d, b, Fold(h[..b.index]), ws) ==
        Booted(node, if st.applied == st.commit then ws else ws + [SaveStable(st.(applied := st.commit))])
  {
    hide Fold, TryApply, ValidEntry;
    SuffixLoadable(h, b.index, limit);
    SuffixFollows(h, b, limit);
    ReplayFolds(h, b.index, 0, d.stable.commit - b.index, limit);
    if d.log != [] { assert d.log[|d.log| - 1] == h[|h| - 1]; }
  }

  lemma SuffixFollows(h: Log, b: Boundary, limit: nat)
    requires Indexed(h) && AllFit(h, limit) && b.index <= |h|
    ensures FollowsBoundary(h[b.index..], b)
  {
    var log := h[b.index..];
    forall i | 0 <= i < |log| ensures ValidEntry(log[i]) && log[i].index == b.index + 1 + i {
      assert log[i] == h[b.index + i] && Fits(h[b.index + i], limit);
    }
  }

  /** Without a snapshot the whole history is on disk. */
  lemma BootsPlain(cfg: Config, d: Disk, m: P.Member, done: Log)
    requires DiskRel(d, m, done) && HistoryOk(m.hist, m.commit, done, cfg.limit) && d.snap.None?
    ensures Recover(cfg, d).Booted? && Recover(cfg, d).node == Fresh(cfg, d.snap, m, done)
    ensures var st := d.stable;
      Recover(cfg, d).writes == if st.applied == st.commit then [] else [SaveStable(st.(applied := st.commit))]
  {
    hide SnapRel, BootLog, AllFit, Indexed;
    assert d.log == m.hist by {
      if d.log != [] { assert ValidEntry(d.log[0]); }
      assert m.hist[0..] == m.hist;
    }
    BootsLog(cfg, d, m.hist, Boundary(0, 0), cfg.limit, []);
    assert m.hist[..m.commit] == done[..m.commit];
    assert [] + [SaveStable(d.stable.(applied := d.stable.commit))] == [SaveStable(d.stable.(applied := d.stable.commit))];
  }

  /** With one, the log is reconciled and the stable state raised first. */
  lemma BootsSnapshot(cfg: Config, d: Disk, m: P.Member, done: Log) returns (cw: seq<Write>)
    requires DiskRel(d, m, done) && HistoryOk(m.hist, m.commit, done, cfg.limit) && d.snap.Some?
    ensures BoundaryOf(d.snap).index <= |m.hist|
    ensures Cutting(cw) && PerformAll(d, cw) == d.(log := m.hist[BoundaryOf(d.snap).index..])
    ensures Recover(cfg, d).Booted? && Recover(cfg, d).node == Fresh(cfg, d.snap, m, done)
    ensures var b := BoundaryOf(d.snap);
      var st := d.stable.(commit := m.commit, applied := Max(d.stable.applied, b.index));
      Recover(cfg, d).writes ==
        if st.applied == st.commit then cw + [SaveStable(st)]
        else cw + [SaveStable(st)] + [SaveStable(st.(applied := st.commit))]
  {
    hide BootLog, AllFit, Indexed, Fold, Restorable, Loadable, Compact, Cut;
    var b, snap := BoundaryOf(d.snap), d.snap.value;
    cw := Reconcile(d.log, b).value;
    CutOnlyLog(d, cw);
    assert m.hist[..b.index] == m.hist[..m.commit][..b.index] == done[..b.index];
    PrefixFits(m.hist, b.index, cfg.limit);
    FoldRestorable(m.hist[..b.index], cfg.limit);
    var st := d.stable.(commit := m.commit, applied := Max(d.stable.applied, b.index));
    PerformConcat(d, cw, [SaveStable(st)]);
    PerformOne(PerformAll(d, cw), SaveStable(st));
    var d2 := d.(log := m.hist[b.index..], stable := st);
    assert PerformAll(d, cw + [SaveStable(st)]) == d2;
    BootsLog(cfg, d2, m.hist, b, cfg.limit, cw + [SaveStable(st)]);
    assert m.hist[..m.commit] == done[..m.commit];
  }

  lemma PrefixFits(h: Log, i: nat, limit: nat)
    requires AllFit(h, limit) && i <= |h|
    ensures AllFit(h[..i], limit)
  {
  }

  /** Recovery never refuses a disk a crash can leave, and its result depends
      only on the member, not on where the crash happened. */
  lemma Recovers(cfg: Config, d: Disk, m: P.Member, done: Log)
    requires DiskRel(d, m, done) && HistoryOk(m.hist, m.commit, done, cfg.limit)
    ensures Recover(cfg, d).Booted? && Recover(cfg, d).node == Fresh(cfg, d.snap, m, done)
  {
    hide DiskRel, HistoryOk, Recover;
    if d.snap.None? { BootsPlain(cfg, d, m, done); } else { var _ := BootsSnapshot(cfg, d, m, done); }
  }

  lemma FreshRel(cfg: Config, d: Disk, id: int, s: P.State)
    requires P.Inv(s) && id in s.at && s.at[id].role == Follower && DiskRel(d, s.at[id], s.done) && CfgRel(cfg, id, s)
    ensures Recover(cfg, d).Booted? && NodeRel(Recover(cfg, d).node, id, s)
  {
    hide P.Inv, Recover, Fold, P.Certified, P.Anchored, Reconciled, AllFit;
    MemberHistory(s, id);
    var m, b := s.at[id], BoundaryOf(d.snap);
    Recovers(cfg, d, m, s.done);
    assert m.hist[..b.index] == m.hist[..m.commit][..b.index];
    TermInPrefix(m.hist[..m.commit], s.done, b.index);
    TermInPrefix(m.hist[..m.commit], m.hist, b.index);
    var n := Fresh(cfg, d.snap, m, s.done);
    assert MemberRel(n, m);
    assert PhaseRel(n, s.done) && Mirror(n);
  }

  /** The disk after any number of recovery's own writes still stands for the member. */
  lemma RecoveryCrashed(cfg: Config, d: Disk, m: P.Member, done: Log, k: nat)
    requires DiskRel(d, m, done) && HistoryOk(m.hist, m.commit, done, cfg.limit)
    requires k <= |Recover(cfg, d).writes|
    ensures var d' := PerformAll(d, Recover(cfg, d).writes[..k]);
      DiskRel(d', m, done) && d'.snap == d.snap
  {
    hide DiskRel, HistoryOk, Recover, PerformAll;
    var ws := Recover(cfg, d).writes;
    if d.snap.None? {
      BootsPlain(cfg, d, m, done);
      StableRaised(d, m, done);
      if k == 0 { Nothing(d, ws); } else {
        assert ws[..k] == [SaveStable(d.stable.(applied := d.stable.commit))];
        PerformOne(d, SaveStable(d.stable.(applied := d.stable.commit)));
      }
    } else {
      var cw := BootsSnapshot(cfg, d, m, done);
      SnapshotStages(cfg, d, m, done, cw, ws, k);
    }
  }

  lemma StableRaised(d: Disk, m: P.Member, done: Log)
    requires DiskRel(d, m, done)
    ensures DiskRel(d.(stable := d.stable.(applied := d.stable.commit)), m, done)
  {
  }

  lemma SnapshotStages(cfg: Config, d: Disk, m: P.Member, done: Log, cw: seq<Write>, ws: seq<Write>, k: nat)
    requires DiskRel(d, m, done) && HistoryOk(m.hist, m.commit, done, cfg.limit) && d.snap.Some?
    requires Cutting(cw) && BoundaryOf(d.snap).index <= |m.hist|
    requires PerformAll(d, cw) == d.(log := m.hist[BoundaryOf(d.snap).index..])
    requires var b := BoundaryOf(d.snap);
      var st := d.stable.(commit := m.commit, applied := Max(d.stable.applied, b.index));
      ws == if st.applied == st.commit then cw + [SaveStable(st)]
            else cw + [SaveStable(st)] + [SaveStable(st.(applied := st.commit))]
    requires k <= |ws|
    ensures var d' := PerformAll(d, ws[..k]); DiskRel(d', m, done) && d'.snap == d.snap
  {
    hide DiskRel, HistoryOk, PerformAll, Cutting;
    var b := BoundaryOf(d.snap);
    var st := d.stable.(commit := m.commit, applied := Max(d.stable.applied, b.index));
    var end := st.(applied := st.commit);
    StageDisks(d, m, done, cfg.limit);
    PerformConcat(d, cw, [SaveStable(st)]);
    PerformOne(PerformAll(d, cw), SaveStable(st));
    PerformConcat(d, cw + [SaveStable(st)], [SaveStable(end)]);
    PerformOne(PerformAll(d, cw + [SaveStable(st)]), SaveStable(end));
    if k < |cw| {
      FewWrites(cw, k);
      assert ws[..k] == ws[..0];
      Nothing(d, ws);
    } else if k == |cw| {
      assert ws[..k] == cw;
    } else if k == |cw| + 1 {
      assert ws[..k] == cw + [SaveStable(st)];
    } else {
      assert ws[..k] == cw + [SaveStable(st)] + [SaveStable(end)];
    }
  }

  lemma FewWrites(cw: seq<Write>, k: nat)
    requires Cutting(cw) && k < |cw|
    ensures k == 0
  {
  }

  lemma StageDisks(d: Disk, m: P.Member, done: Log, limit: nat)
    requires DiskRel(d, m, done) && HistoryOk(m.hist, m.commit, done, limit) && d.snap.Some?
    ensures var b := BoundaryOf(d.snap);
      var st := d.stable.(commit := m.commit, applied := Max(d.stable.applied, b.index));
      && b.index <= |m.hist|
      && DiskRel(d.(log := m.hist[b.index..]), m, done)
      && DiskRel(d.(log := m.hist[b.index..], stable := st), m, done)
      && DiskRel(d.(log := m.hist[b.index..], stable := st.(applied := st.commit)), m, done)
  {
    hide Reconciled, Fold, Loadable, Restorable;
    var b := BoundaryOf(d.snap);
    BoundaryTerm(d, m, done, limit);
    ReconcileSuffix(m.hist, b.index, b);
    SuffixLoadable(m.hist, b.index, limit);
  }

  lemma BoundaryTerm(d: Disk, m: P.Member, done: Log, limit: nat)
    requires DiskRel(d, m, done) && HistoryOk(m.hist, m.commit, done, limit) && d.snap.Some?
    ensures BoundaryOf(d.snap).index <= |m.hist| && BoundaryOf(d.snap).term == TermIn(m.hist, BoundaryOf(d.snap).index)
  {
    hide Reconciled, Fold, Loadable;
    var b := BoundaryOf(d.snap);
    TermInPrefix(m.hist[..m.commit], done, b.index);
    TermInPrefix(m.hist[..m.commit], m.hist, b.index);
  }

  /** Crashing inside recovery and running it again ends in the same node. */
  lemma RecoveryIdempotent(cfg: Config, d: Disk, m: P.Member, done: Log, k: nat)
    requires DiskRel(d, m, done) && HistoryOk(m.hist, m.commit, done, cfg.limit)
    requires k <= |Recover(cfg, d).writes|
    ensures var again := Recover(cfg, PerformAll(d, Recover(cfg, d).writes[..k]));
      again.Booted? && Recover(cfg, d).Booted? && again.node == Recover(cfg, d).node
  {
    hide DiskRel, HistoryOk, Recover, PerformAll;
    RecoveryCrashed(cfg, d, m, done, k);
    Recovers(cfg, d, m, done);
    Recovers(cfg, PerformAll(d, Recover(cfg, d).writes[..k]), m, done);
  }
}
