/** The apply loop's locked sections do not change what a node stands for in
    the protocol. Images are taken of committed prefixes only. */
module ApplyLoop {
  import opened Entries
  import opened KvStore
  import opened Disk
  import opened Node
  import opened Relation
  import P = Protocol

  /** Applied history and committed history are the same entries. */
  lemma AppliedIs(n: Node, id: int, s: P.State, i: nat)
    requires P.Inv(s) && NodeRel(n, id, s) && i <= n.commit
    ensures i <= |s.at[id].hist| && i <= |s.done|
    ensures s.at[id].hist[..i] == s.done[..i] && TermIn(s.at[id].hist, i) == TermIn(s.done, i)
    ensures 0 < i ==> s.at[id].hist[i - 1] == s.done[i - 1] && Fits(s.done[i - 1], s.limit)
  {
    hide P.Inv, PhaseRel, CfgRel, RoleRel, Mirror, P.Certified, P.Anchored, Fold;
    MemberHistory(s, id);
    var h := s.at[id].hist;
    assert h[..i] == h[..n.commit][..i] == s.done[..i];
    if 0 < i { assert h[i - 1] == h[..i][i - 1] == s.done[..i][i - 1]; }
  }

  lemma Picking(n: Node, id: int, s: P.State)
    requires P.Inv(s) && NodeRel(n, id, s)
    ensures NodeRel(Pick(n).node, id, s) && Pick(n).writes == []
    ensures Pick(n).node.phase == Stopped ==> n.phase == Stopped
  {
    hide P.Inv, P.Certified, P.Anchored, Fold, EntryAt;
    MemberHistory(s, id);
    EntryIs(n, s.at[id].hist, n.applied + 1);
    if n.applied < n.commit { AppliedIs(n, id, s, n.applied + 1); }
  }

  /** An entry still next in order moves the store from one applied prefix to the next. */
  lemma Running(n: Node, id: int, s: P.State)
    requires P.Inv(s) && NodeRel(n, id, s)
    ensures NodeRel(RunEntry(n).node, id, s) && RunEntry(n).writes == []
    ensures n.phase.Picked? ==> RunEntry(n).node.phase == Applied(n.phase.entry) && RunEntry(n).node.store == Apply(n.store, n.phase.entry)
  {
    hide P.Inv, Fold, Apply;
    if n.phase.Picked? {
      var e := n.phase.entry;
      AppliedIs(n, id, s, e.index);
      if e.index == n.applied + 1 { FoldStep(s.done, n.applied); }
    }
  }

  lemma Publishing(n: Node, id: int, s: P.State)
    requires P.Inv(s) && NodeRel(n, id, s)
    ensures NodeRel(Publish(n).node, id, s) && |Publish(n).writes| <= 1
  {
    hide P.Inv, Fold, CfgRel, SuffixOf, SnapRel;
    var n' := Publish(n).node;
    assert PhaseRel(n', s.done) by { hide MemberRel, RoleRel, Mirror; }
    hide PhaseRel;
  }

  lemma Capturing(n: Node, id: int, s: P.State)
    requires P.Inv(s) && NodeRel(n, id, s)
    ensures NodeRel(Capture(n).node, id, s) && Capture(n).writes == []
  {
    hide P.Inv, Fold, TermAt, P.Certified, P.Anchored;
    MemberHistory(s, id);
    TermIs(n, s.at[id].hist, n.applied);
    AppliedIs(n, id, s, n.applied);
  }

  lemma SavingImage(n: Node, id: int, s: P.State)
    requires P.Inv(s) && NodeRel(n, id, s)
    ensures NodeRel(SaveImage(n).node, id, s) && |SaveImage(n).writes| <= 1
  {
    hide P.Inv, Fold, SnapshotOk, Perform;
    var n' := SaveImage(n).node;
    if n.phase.Captured? && SaveImage(n).reply {
      var snap := Snapshot(n.phase.index, n.phase.term, Image(n.store));
      SavedDisk(n, snap);
      assert SnapRel(snap, s.done) && PhaseRel(n', s.done) by { hide CfgRel, MemberRel, RoleRel, Mirror; }
      assert RoleRel(n', id, s) && MemberRel(n', s.at[id]) by { hide CfgRel, PhaseRel, Mirror, SnapRel; }
      hide RoleRel, MemberRel, CfgRel, PhaseRel, SnapRel;
    }
  }

  lemma SavedDisk(n: Node, snap: Snapshot)
    ensures Do(n, SaveSnapshot(snap)) == n.(disk := n.disk.(snap := Some(snap)))
  {
  }

  lemma PublishingImage(n: Node, id: int, s: P.State)
    requires P.Inv(s) && NodeRel(n, id, s)
    ensures NodeRel(PublishImage(n).node, id, s) && |PublishImage(n).writes| <= 1
  {
    hide P.Inv, NodeRel, EntriesFrom, P.Certified, P.Anchored, Compact, AllFit;
    if n.phase.Saved? {
      SavedFacts(n, id, s);
      MemberHistory(s, id);
      var h := s.at[id].hist;
      EntriesAre(n, h, n.applied + 1);
      CompactSuffix(h, n.meta.index, n.applied);
      AppliedIs(n, id, s, n.applied);
      Compacted(n, id, s);
    }
  }

  lemma SavedFacts(n: Node, id: int, s: P.State)
    requires NodeRel(n, id, s) && n.phase.Saved?
    ensures id in s.at && n.phase.index == n.applied && n.phase.term == TermIn(s.done, n.applied)
    ensures SuffixOf(n.log, n.meta, s.at[id].hist) && n.meta.index <= n.applied <= n.commit == s.at[id].commit
    ensures n.disk.log == n.log
  {
    hide CfgRel, RoleRel, SnapRel, Fold;
  }

  /** Publishing the boundary of a saved image only shortens the log. */
  lemma Compacted(n: Node, id: int, s: P.State)
    requires NodeRel(n, id, s) && n.phase.Saved? && n.applied <= |s.at[id].hist| && Indexed(s.at[id].hist)
    requires TermIn(s.at[id].hist, n.applied) == n.phase.term && n.meta.index <= n.phase.index == n.applied
    ensures n.meta.index == n.applied ==> NodeRel(n.(phase := Idle), id, s)
    ensures var rest := s.at[id].hist[n.applied..];
      NodeRel(n.(phase := Idle, log := rest, meta := Boundary(n.applied, n.phase.term), disk := n.disk.(log := rest)), id, s)
  {
    hide CfgRel, Fold;
    var h := s.at[id].hist;
    var n' := n.(phase := Idle, log := h[n.applied..], meta := Boundary(n.applied, n.phase.term), disk := n.disk.(log := h[n.applied..]));
    assert PhaseRel(n', s.done) && PhaseRel(n.(phase := Idle), s.done) by { hide MemberRel, RoleRel, Mirror; }
    assert RoleRel(n', id, s) by { LastMoves(n, n', h); hide PhaseRel, Mirror, SnapRel; }
    hide PhaseRel;
  }

  lemma LastMoves(n: Node, n': Node, h: Log)
    requires SuffixOf(n.log, n.meta, h) && SuffixOf(n'.log, n'.meta, h) && Indexed(h)
    ensures LastIndex(n') == LastIndex(n)
  {
    if n.log != [] { assert n.log[|n.log| - 1] == h[|h| - 1]; }
    if n'.log != [] { assert n'.log[|n'.log| - 1] == h[|h| - 1]; }
  }
}
