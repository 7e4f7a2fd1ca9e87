/** The durable Raft log over the record file, and the plain in-memory log it
    agrees with. Entries reach records through a codec that loses nothing. */
module LogStore {
  import opened Entries
  import opened Disk
  import opened Wal

  // ------------------------------------------------------------------ codec

  datatype Codec = Codec(enc: LogEntry -> Bytes, dec: Bytes -> Option<LogEntry>)

  ghost predicate Faithful(c: Codec) {
    forall e :: c.dec(c.enc(e)) == Some(e)
  }

  function Records(c: Codec, log: Log): seq<Bytes> {
    seq(|log|, i requires 0 <= i < |log| => c.enc(log[i]))
  }

  /** Every entry is short enough for one record. */
  predicate Storable(c: Codec, log: Log) {
    AllValid(Records(c, log))
  }

  /** What the records say as a log, if they are a log. */
  ghost predicate Decodes(c: Codec, rs: seq<Bytes>, log: Log) {
    |log| == |rs| && (forall i :: 0 <= i < |rs| ==> c.dec(rs[i]) == Some(log[i])) && Loadable(log)
  }

  lemma RecordsDecode(c: Codec, log: Log)
    requires Faithful(c) && Loadable(log)
    ensures Decodes(c, Records(c, log), log)
  {
  }

  lemma DecodesOnce(c: Codec, rs: seq<Bytes>, a: Log, b: Log)
    requires Decodes(c, rs, a) && Decodes(c, rs, b)
    ensures a == b
  {
    forall i | 0 <= i < |rs| ensures a[i] == b[i] { assert Some(a[i]) == c.dec(rs[i]) == Some(b[i]); }
  }

  lemma RecordsConcat(c: Codec, a: Log, b: Log)
    ensures Records(c, a + b) == Records(c, a) + Records(c, b)
  {
  }

  /** Position of the first entry with index at least i, as the stores search for it. */
  method FindFrom(log: Log, i: nat) returns (p: nat)
    ensures p == FirstFrom(log, i)
  {
    p := 0;
    while p < |log|
      invariant p <= |log| && FirstFrom(log, i) == p + FirstFrom(log[p..], i)
    {
      if log[p].index >= i { return; }
      assert log[p..][1..] == log[p + 1..];
      p := p + 1;
    }
  }

  // --------------------------------------------------------------- in memory

  class MemoryLogStore {
    var entries: Log

    constructor ()
      ensures entries == []
    {
      entries := [];
    }

    method Load() returns (log: Log)
      ensures log == entries
    {
      log := entries;
    }

    method Append(es: Log)
      modifies this
      ensures entries == old(entries) + es
    {
      entries := entries + es;
    }

    method TruncateFrom(index: nat) returns (ok: bool)
      modifies this
      ensures ok == CanCut(old(entries), index) && entries == Cut(old(entries), index)
    {
      if index == 0 { return false; }
      if |entries| == 0 { return true; }
      if index > entries[|entries| - 1].index + 1 { return false; }
      var p := FindFrom(entries, index);
      entries := entries[..p];
      ok := true;
    }

    method CompactThrough(index: nat)
      modifies this
      ensures entries == Compact(old(entries), index)
    {
      var p := FindFrom(entries, index + 1);
      entries := entries[p..];
    }
  }

  // ----------------------------------------------------------------- on disk

  class FileLogStore {
    const codec: Codec
    const wal: WAL

    constructor (codec: Codec, wal: WAL)
      ensures this.codec == codec && this.wal == wal
    {
      this.codec := codec;
      this.wal := wal;
    }

    /** The file is exactly log. */
    ghost predicate Holds(log: Log)
      reads wal
    {
      wal.open && Loadable(log) && Storable(codec, log) && wal.file == Encode(Records(codec, log))
    }

    /** The file is log, possibly followed by what a crash left of a frame. */
    ghost predicate Keeps(log: Log)
      reads wal
    {
      wal.open && Loadable(log) && exists tail :: Reads(wal.file, Records(codec, log), tail) && !Corrupt(tail)
    }

    lemma HoldsKeeps(log: Log)
      requires Holds(log)
      ensures Keeps(log)
    {
      hide Encode, Corrupt, Loadable;
      Intact(Records(codec, log));
    }

    /** Decodes in order and refuses the first record that is not the next entry. */
    method Decode(records: seq<Bytes>) returns (r: Option<Log>)
      ensures r.Some? ==> Decodes(codec, records, r.value)
      ensures r.None? ==> forall log :: !Decodes(codec, records, log)
    {
      var log: Log := [];
      var i := 0;
      while i < |records|
        invariant 0 <= i <= |records| && Decodes(codec, records[..i], log)
      {
        var e := codec.dec(records[i]);
        if e.None? || !ValidEntry(e.value) || (i > 0 && e.value.index != log[i - 1].index + 1) {
          NotNext(codec, records, i, log);
          return None;
        }
        log := log + [e.value];
        i := i + 1;
      }
      assert records[..i] == records;
      r := Some(log);
    }

    method Load() returns (r: Option<Log>)
      modifies wal
      ensures wal.open == old(wal.open)
      ensures Faithful(codec) ==> forall log :: old(Keeps(log)) ==> r == Some(log) && Holds(log)
      ensures r.Some? ==> wal.open && Loadable(r.value) && exists rs, tail ::
        Reads(old(wal.file), rs, tail) && wal.file == Encode(rs) && Decodes(codec, rs, r.value)
    {
      hide Encode, Corrupt, Whole;
      var records := wal.Replay();
      if records.None? {
        forall log | old(Keeps(log)) ensures false { NotCorrupt(old(wal.file), Records(codec, log)); }
        return None;
      }
      r := Decode(records.value);
      forall log | Faithful(codec) && old(Keeps(log)) ensures r == Some(log) && Holds(log) {
        SameRecords(old(wal.file), records.value, Records(codec, log));
        RecordsDecode(codec, log);
        if r.Some? { DecodesOnce(codec, records.value, r.value, log); }
      }
    }

    /** Checks and encodes a batch; nothing is written yet. */
    method EncodeEntries(es: Log) returns (records: Option<seq<Bytes>>)
      ensures records == if Loadable(es) then Some(Records(codec, es)) else None
    {
      var out: seq<Bytes> := [];
      var i := 0;
      while i < |es|
        invariant 0 <= i <= |es| && Loadable(es[..i]) && out == Records(codec, es[..i])
      {
        if !ValidEntry(es[i]) || (i > 0 && es[i].index != es[i - 1].index + 1) { return None; }
        out := out + [codec.enc(es[i])];
        i := i + 1;
      }
      assert es[..i] == es;
      records := Some(out);
    }

    /** Refuses a bad batch whole; a record too long stops it part way. */
    method Append(es: Log) returns (ok: bool)
      modifies wal
      ensures wal.open == old(wal.open)
      ensures ok == (es == [] || (wal.open && Loadable(es) && Storable(codec, es)))
      ensures wal.file == if wal.open && Loadable(es)
        then old(wal.file) + Encode(Records(codec, es)[..Writable(Records(codec, es))]) else old(wal.file)
      ensures ok ==> forall log :: old(Holds(log)) && Loadable(log + es) ==> Holds(log + es)
    {
      hide Encode;
      if |es| == 0 {
        EncodeNone();
        assert old(wal.file) + [] == old(wal.file);
        assert forall log: Log :: log + es == log;
        return true;
      }
      var records := EncodeEntries(es);
      if records.None? { return false; }
      ok := wal.AppendBatch(records.value);
      if ok {
        assert records.value[..Writable(records.value)] == records.value;
        forall log | old(Holds(log)) && Loadable(log + es) ensures Holds(log + es) {
          RecordsConcat(codec, log, es);
          EncodeConcat(Records(codec, log), Records(codec, es));
        }
      }
    }

    method ReplaceAll(es: Log) returns (ok: bool)
      modifies wal
      ensures wal.open == old(wal.open) && ok == (wal.open && Loadable(es) && Storable(codec, es))
      ensures wal.file == if ok then Encode(Records(codec, es)) else old(wal.file)
    {
      hide Encode;
      var records := EncodeEntries(es);
      if records.None? { return false; }
      ok := wal.Replace(records.value);
    }

    method TruncateFrom(index: nat) returns (ok: bool)
      modifies wal
      ensures wal.open == old(wal.open)
      ensures Faithful(codec) ==> forall log :: old(Keeps(log)) ==>
        ok == CanCut(log, index) && (index != 0 ==> Holds(Cut(log, index))) && (index == 0 ==> Keeps(log))
    {
      hide Encode, Corrupt, Loadable;
      if index == 0 { return false; }
      var entries := Load();
      if entries.None? { return false; }
      var es := entries.value;
      var p := |es|;
      if |es| > 0 {
        if index > es[|es| - 1].index + 1 { return false; }
        p := FindFrom(es, index);
      }
      SlicesHold(codec, es, 0, p);
      ok := ReplaceAll(es[..p]);
      forall log | Faithful(codec) && old(Keeps(log)) ensures ok == CanCut(log, index) && Holds(Cut(log, index)) {
        assert es[..p] == Cut(log, index);
      }
    }

    method CompactThrough(index: nat) returns (ok: bool)
      modifies wal
      ensures wal.open == old(wal.open)
      ensures Faithful(codec) ==> forall log :: old(Keeps(log)) ==> ok && Holds(Compact(log, index))
    {
      hide Encode, Corrupt, Loadable;
      var entries := Load();
      if entries.None? { return false; }
      var es := entries.value;
      var p := FindFrom(es, index + 1);
      SlicesHold(codec, es, p, |es|);
      assert es[p..|es|] == es[p..];
      ok := ReplaceAll(es[p..]);
    }
  }

  /** Any run of consecutive entries of a stored log can be stored. */
  lemma SlicesHold(c: Codec, log: Log, i: nat, j: nat)
    requires i <= j <= |log| && Loadable(log)
    ensures Loadable(log[i..j]) && (Storable(c, log) ==> Storable(c, log[i..j]))
  {
    assert Records(c, log[i..j]) == Records(c, log)[i..j];
  }

  lemma NotNext(c: Codec, rs: seq<Bytes>, i: nat, log: Log)
    requires i < |rs| && Decodes(c, rs[..i], log)
    requires var e := c.dec(rs[i]); e.None? || !ValidEntry(e.value) || (i > 0 && e.value.index != log[i - 1].index + 1)
    ensures forall l :: !Decodes(c, rs, l)
  {
  }

  /** A file with a clean tail never reads as corrupt. */
  lemma NotCorrupt(file: Bytes, rs: seq<Bytes>)
    requires exists tail :: Reads(file, rs, tail) && !Corrupt(tail)
    ensures !exists a, t :: Reads(file, a, t) && Corrupt(t)
  {
    hide Encode, Corrupt, Whole, Reads;
    var tail :| Reads(file, rs, tail) && !Corrupt(tail);
    ReadsBack(file, rs, tail);
  }

  lemma SameRecords(file: Bytes, a: seq<Bytes>, b: seq<Bytes>)
    requires exists t :: Reads(file, a, t) && !Corrupt(t)
    requires exists t :: Reads(file, b, t) && !Corrupt(t)
    ensures a == b
  {
    hide Encode, Corrupt, Whole, Reads;
    var t :| Reads(file, a, t) && !Corrupt(t);
    ReadsBack(file, a, t);
  }

  // -------------------------------------------------------------- refinement

  /** What Raft asks of a log store; Reload is what a restart does, Torn an
      append of which a crash leaves cut bytes, and the restart after it. */
  datatype Op = Add(es: Log) | Truncate(index: nat) | CompactTo(index: nat) | Reload | Torn(batch: Log, cut: nat)

  /** How much of a batch survives a crash cut bytes into its append. */
  function Survives(c: Codec, es: Log, cut: nat): (j: nat)
    requires Storable(c, es)
    ensures j <= |es|
  {
    Fitting(Records(c, es), cut)
  }

  function Effect(c: Codec, log: Log, op: Op): Log
    requires op.Torn? ==> Storable(c, op.batch)
  {
    match op
    case Add(es) => log + es
    case Truncate(i) => Cut(log, i)
    case CompactTo(i) => Compact(log, i)
    case Reload => log
    case Torn(es, cut) => log + es[..Survives(c, es, cut)]
  }

  /** Every append continues the log with entries that fit a record. */
  predicate Admissible(c: Codec, log: Log, ops: seq<Op>)
    decreases |ops|
  {
    ops != [] ==>
      && (ops[0].Add? ==> Loadable(log + ops[0].es) && Storable(c, ops[0].es))
      && (ops[0].Torn? ==> Loadable(log + ops[0].batch) && Storable(c, ops[0].batch))
      && Admissible(c, Effect(c, log, ops[0]), ops[1..])
  }

  /** The file store and the in-memory store, driven through any admissible
      sequence of operations, give the same answers and load the same log. */
  method RunBoth(c: Codec, ops: seq<Op>) returns (f: Option<Log>, m: Log, same: bool)
    requires Faithful(c) && Admissible(c, [], ops)
    ensures f == Some(m) && same
  {
    hide Encode, Corrupt, Loadable, Reads, Storable;
    var wal := new WAL([]);
    var file := new FileLogStore(c, wal);
    var memory := new MemoryLogStore();
    EmptyHolds(c);
    same := true;
    var i := 0;
    while i < |ops|
      invariant 0 <= i <= |ops| && same && fresh(wal) && fresh(memory) && file.codec == c && file.wal == wal
      invariant file.Holds(memory.entries) && Admissible(c, memory.entries, ops[i..])
    {
      file.HoldsKeeps(memory.entries);
      assert ops[i..][1..] == ops[i + 1..];
      match ops[i] {
        case Add(es) =>
          var ok := Appended(file, memory.entries, es);
          memory.Append(es);
          same := same && ok;
        case Truncate(index) =>
          var a := Truncated(file, memory.entries, index);
          var b := memory.TruncateFrom(index);
          same := same && a == b;
        case CompactTo(index) =>
          var ok := file.CompactThrough(index);
          memory.CompactThrough(index);
          same := same && ok;
        case Reload =>
          var log := file.Load();
          var kept := memory.Load();
          same := same && log == Some(kept);
        case Torn(es, cut) =>
          var log := CrashAppending(file, memory.entries, es, cut);
          memory.Append(es[..Survives(c, es, cut)]);
          same := same && log == Some(memory.entries);
      }
      i := i + 1;
    }
    file.HoldsKeeps(memory.entries);
    f := file.Load();
    m := memory.Load();
  }

  lemma EmptyHolds(c: Codec)
    ensures Encode(Records(c, [])) == [] && Loadable([]) && Storable(c, [])
  {
  }

  method Appended(file: FileLogStore, ghost log: Log, es: Log) returns (ok: bool)
    requires file.Holds(log) && Loadable(log + es) && Storable(file.codec, es)
    modifies file.wal
    ensures ok && file.Holds(log + es)
  {
    hide Encode;
    SlicesHold(file.codec, log + es, |log|, |log + es|);
    assert (log + es)[|log|..|log + es|] == es;
    ok := file.Append(es);
  }

  /** A process that dies cut bytes into an append, and the next one's Load. */
  method CrashAppending(file: FileLogStore, ghost log: Log, es: Log, cut: nat) returns (r: Option<Log>)
    requires file.Holds(log) && Loadable(log + es) && Storable(file.codec, es) && Faithful(file.codec)
    modifies file.wal
    ensures var kept := log + es[..Survives(file.codec, es, cut)]; r == Some(kept) && file.Holds(kept)
  {
    hide Encode, Corrupt, Reads;
    ghost var c := file.codec;
    var before := |file.wal.file|;
    var ok := Appended(file, log, es);
    TornFile(c, log, es, Min(cut, |Encode(Records(c, es))|));
    file.wal.Truncate(Min(before + cut, |file.wal.file|));
    ghost var kept := log + es[..Survives(c, es, cut)];
    SameFit(Records(c, es), cut);
    assert file.Keeps(kept);
    r := file.Load();
  }

  lemma SameFit(rs: seq<Bytes>, cut: nat)
    requires AllValid(rs)
    ensures Fitting(rs, Min(cut, |Encode(rs)|)) == Fitting(rs, cut)
  {
  }

  lemma TornFile(c: Codec, log: Log, es: Log, cut: nat)
    requires Loadable(log + es) && Storable(c, log) && Storable(c, es) && cut <= |Encode(Records(c, es))|
    ensures Storable(c, log + es) && |Encode(Records(c, log + es))| == |Encode(Records(c, log))| + |Encode(Records(c, es))|
    ensures var kept := log + es[..Survives(c, es, cut)];
      Loadable(kept) && exists tail ::
        Reads(Encode(Records(c, log + es))[..|Encode(Records(c, log))| + cut], Records(c, kept), tail) && !Corrupt(tail)
  {
    hide Encode, Corrupt, Reads;
    var j := Survives(c, es, cut);
    RecordsConcat(c, log, es);
    EncodeConcat(Records(c, log), Records(c, es));
    AppendTorn(Records(c, log), Records(c, es), cut);
    assert Records(c, es)[..j] == Records(c, es[..j]);
    RecordsConcat(c, log, es[..j]);
    assert log + es[..j] == (log + es)[0..|log| + j];
    SlicesHold(c, log + es, 0, |log| + j);
  }

  method Truncated(file: FileLogStore, ghost log: Log, index: nat) returns (ok: bool)
    requires file.Holds(log) && Faithful(file.codec)
    modifies file.wal
    ensures ok == CanCut(log, index) && file.Holds(Cut(log, index))
  {
    hide Encode, Corrupt, Loadable;
    file.HoldsKeeps(log);
    if index == 0 { return false; }
    ok := file.TruncateFrom(index);
  }

  /** Each operation is what the node's disk writes do to its log. */
  lemma OpsAreWrites(c: Codec, d: Disk, es: Log, i: nat)
    ensures PerformAll(d, Appends(es)).log == Effect(c, d.log, Add(es))
    ensures Perform(d, CutLog(i)).log == Effect(c, d.log, Truncate(i))
    ensures Perform(d, CompactLog(i)).log == Effect(c, d.log, CompactTo(i))
  {
    PerformAppends(d, es);
  }

  /** A crash after any byte of an append leaves the old log and a prefix of
      the batch: one whole entry write after another, as the disk model has it. */
  lemma CrashInAppend(c: Codec, d: Disk, es: Log, cut: nat)
    requires Loadable(d.log + es) && Storable(c, d.log) && Storable(c, es) && cut <= |Encode(Records(c, es))|
    ensures var j := Survives(c, es, cut); var kept := PerformAll(d, Appends(es)[..j]).log;
      && kept == Effect(c, d.log, Torn(es, cut)) && Loadable(kept)
      && Storable(c, d.log + es) && |Encode(Records(c, d.log))| + cut <= |Encode(Records(c, d.log + es))|
      && exists tail ::
        Reads(Encode(Records(c, d.log + es))[..|Encode(Records(c, d.log))| + cut], Records(c, kept), tail) && !Corrupt(tail)
  {
    hide Encode, Corrupt, Reads;
    var j := Survives(c, es, cut);
    TornFile(c, d.log, es, cut);
    AppendsPrefix(es, j);
    PerformAppends(d, es[..j]);
  }
}
