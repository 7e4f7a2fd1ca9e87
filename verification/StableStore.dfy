/** The single-document stores of the stable state and of the snapshot. Each
    document is replaced atomically; a missing file is a fresh node. */
module StableStore {
  import opened Entries
  import opened Disk

  class FileStableStore {
    var doc: Option<Stable>

    constructor (doc: Option<Stable>)
      ensures this.doc == doc
    {
      this.doc := doc;
    }

    /** Refuses a document Save would not have written. */
    method Load() returns (r: Option<Stable>)
      ensures doc.None? ==> r == Some(BLANK.stable)
      ensures doc.Some? ==> r == if NO_VOTE <= doc.value.votedFor && doc.value.applied <= doc.value.commit then doc else None
    {
      if doc.None? { return Some(Stable(0, NO_VOTE, 0, 0)); }
      if doc.value.votedFor < NO_VOTE { return None; }
      if doc.value.applied > doc.value.commit { return None; }
      r := doc;
    }

    method Save(s: Stable) returns (ok: bool)
      modifies this
      ensures ok == (NO_VOTE <= s.votedFor && s.applied <= s.commit) && doc == if ok then Some(s) else old(doc)
    {
      if s.votedFor < NO_VOTE { return false; }
      if s.applied > s.commit { return false; }
      doc := Some(s);
      ok := true;
    }
  }

  const FORMAT_VERSION: nat := 1

  /** The snapshot file: absent, not decodable, or a document with its checksum. */
  datatype SnapshotFile = Missing | Garbled | Document(version: nat, snap: Snapshot, checksum: nat)

  class SnapshotStore {
    const digest: Snapshot -> nat
    var file: SnapshotFile

    constructor (digest: Snapshot -> nat, file: SnapshotFile)
      ensures this.digest == digest && this.file == file
    {
      this.digest := digest;
      this.file := file;
    }

    /** A missing snapshot is no error; a damaged one is. */
    method Load() returns (ok: bool, r: Option<Snapshot>)
      ensures file.Missing? ==> ok && r == None
      ensures file.Garbled? ==> !ok && r == None
      ensures file.Document? ==>
        ok == (file.version == FORMAT_VERSION && (file.snap.index > 0 || file.snap.term == 0) && file.snap.data.Image? && file.checksum == digest(file.snap))
      ensures file.Document? ==> r == if ok then Some(file.snap) else None
    {
      if file.Missing? { return true, None; }
      if file.Garbled? { return false, None; }
      if file.version != FORMAT_VERSION { return false, None; }
      if file.snap.index == 0 && file.snap.term != 0 { return false, None; }
      if file.snap.data.NoBytes? { return false, None; }
      if file.checksum != digest(file.snap) { return false, None; }
      ok, r := true, Some(file.snap);
    }

    method Save(s: Snapshot) returns (ok: bool)
      modifies this
      ensures ok == ((s.index > 0 || s.term == 0) && s.data.Image?) && file == if ok then Document(FORMAT_VERSION, s, digest(s)) else old(file)
    {
      if s.index == 0 && s.term != 0 { return false; }
      if s.data.NoBytes? { return false; }
      file := Document(FORMAT_VERSION, s, digest(s));
      ok := true;
    }
  }

  /** A saved snapshot loads back; once its content is altered to anything of
      another digest, loading refuses it. */
  method SaveThenAlter(digest: Snapshot -> nat, s: Snapshot, altered: Snapshot) returns (r: Option<Snapshot>, ok: bool)
    requires SnapshotOk(s)
    ensures r == Some(s) && (digest(altered) != digest(s) ==> !ok)
  {
    var store := new SnapshotStore(digest, Missing);
    var saved := store.Save(s);
    var loaded;
    loaded, r := store.Load();
    var hurt := new SnapshotStore(digest, store.file.(snap := altered));
    var x;
    ok, x := hurt.Load();
  }

  /** The last accepted document, or what was there before. */
  function LastSaved(doc: Option<Stable>, ss: seq<Stable>): Option<Stable>
    decreases |ss|
  {
    if ss == [] then doc
    else if StableOk(ss[|ss| - 1]) then Some(ss[|ss| - 1])
    else LastSaved(doc, ss[..|ss| - 1])
  }

  /** Whatever is saved, in whatever order, a fresh store always loads, and
      loads the last document that was accepted. */
  method SaveAllThenLoad(ss: seq<Stable>) returns (r: Option<Stable>)
    ensures r == Some(if LastSaved(None, ss).Some? then LastSaved(None, ss).value else BLANK.stable)
  {
    var store := new FileStableStore(None);
    var i := 0;
    while i < |ss|
      invariant 0 <= i <= |ss| && fresh(store)
      invariant store.doc == LastSaved(None, ss[..i]) && (store.doc.Some? ==> StableOk(store.doc.value))
    {
      var _ := store.Save(ss[i]);
      assert ss[..i + 1][..i] == ss[..i];
      i := i + 1;
    }
    assert ss[..i] == ss;
    r := store.Load();
  }
}
