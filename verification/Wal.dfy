/** The append-only record file: length-prefixed frames, replay that drops a
    torn last frame, and atomic replacement. */
module Wal {
  import opened Entries

  newtype byte = x: int | 0 <= x < 256

  type Bytes = seq<byte>

  const MAX_RECORD_SIZE := 0x100_0000

  // ---------------------------------------------------------------- framing

  predicate ValidRecord(r: Bytes) {
    0 < |r| <= MAX_RECORD_SIZE
  }

  predicate AllValid(rs: seq<Bytes>) {
    forall i :: 0 <= i < |rs| ==> ValidRecord(rs[i])
  }

  /** Four bytes, most significant first. */
  function Header(n: nat): (h: Bytes)
    requires n < 0x1_0000_0000
    ensures |h| == 4 && Size(h) == n
  {
    assert n / 0x100 == n / 0x1_0000 * 0x100 + n / 0x100 % 0x100 && n / 0x1_0000 == n / 0x100_0000 * 0x100 + n / 0x1_0000 % 0x100;
    [(n / 0x100_0000) as byte, (n / 0x1_0000 % 0x100) as byte, (n / 0x100 % 0x100) as byte, (n % 0x100) as byte]
  }

  function Size(h: Bytes): nat
    requires |h| >= 4
  {
    h[0] as nat * 0x100_0000 + h[1] as nat * 0x1_0000 + h[2] as nat * 0x100 + h[3] as nat
  }

  /** a comes before b, compared byte by byte from the front. */
  predicate Before(a: Bytes, b: Bytes) {
    |a| == |b| && exists k :: 0 <= k < |a| && a[..k] == b[..k] && a[k] < b[k]
  }

  /** The most significant byte comes first: headers sort as the sizes do. */
  lemma HeaderOrder(m: nat, n: nat)
    requires m < n < 0x1_0000_0000
    ensures Before(Header(m), Header(n))
  {
    var a, b := Header(m), Header(n);
    var k := if a[0] != b[0] then 0 else if a[1] != b[1] then 1 else if a[2] != b[2] then 2 else 3;
    assert Size(a) == m && Size(b) == n;
    assert a[..k] == b[..k] && a[k] < b[k];
  }

  function Frame(r: Bytes): Bytes
    requires ValidRecord(r)
  {
    Header(|r|) + r
  }

  function Encode(rs: seq<Bytes>): Bytes
    requires AllValid(rs)
  {
    if rs == [] then [] else Encode(rs[..|rs| - 1]) + Frame(rs[|rs| - 1])
  }

  // ----------------------------------------------------------------- replay

  /** A header with a size no writer produces. */
  predicate Corrupt(tail: Bytes) {
    |tail| >= 4 && (Size(tail) == 0 || Size(tail) > MAX_RECORD_SIZE)
  }

  /** The bytes start with a complete frame. */
  predicate Whole(tail: Bytes) {
    |tail| >= 4 && !Corrupt(tail) && |tail| >= 4 + Size(tail)
  }

  /** rs is what file says, and tail is what cannot be read after it. */
  predicate Reads(file: Bytes, rs: seq<Bytes>, tail: Bytes) {
    AllValid(rs) && file == Encode(rs) + tail && !Whole(tail)
  }

  lemma {:induction false} EncodeConcat(a: seq<Bytes>, b: seq<Bytes>)
    requires AllValid(a) && AllValid(b)
    ensures Encode(a + b) == Encode(a) + Encode(b)
  {
    if b == [] {
      assert a + b == a;
    } else {
      var k := |b| - 1;
      assert (a + b)[..|a + b| - 1] == a + b[..k];
      EncodeConcat(a, b[..k]);
    }
  }

  lemma EncodeNone()
    ensures Encode([]) == []
  {
  }

  lemma EncodeOne(r: Bytes)
    requires ValidRecord(r)
    ensures Encode([r]) == Frame(r)
  {
    hide Frame;
    assert [r][..0] == [];
    assert Encode([r]) == [] + Frame(r);
  }

  lemma EncodeLast(rs: seq<Bytes>, i: nat)
    requires AllValid(rs) && i < |rs|
    ensures Encode(rs[..i + 1]) == Encode(rs[..i]) + Frame(rs[i])
  {
    hide Frame;
    assert rs[..i + 1][..i] == rs[..i];
  }

  lemma EncodeFirst(rs: seq<Bytes>)
    requires AllValid(rs) && rs != []
    ensures Encode(rs) == Frame(rs[0]) + Encode(rs[1..])
  {
    EncodeOne(rs[0]);
    EncodeConcat([rs[0]], rs[1..]);
    assert rs == [rs[0]] + rs[1..] by { hide Encode; }
  }

  lemma FrameSize(r: Bytes, rest: Bytes)
    requires ValidRecord(r)
    ensures var f := Frame(r) + rest; Whole(f) && Size(f) == |r| && f[4..4 + |r|] == r && f[4 + |r|..] == rest
  {
    var f := Frame(r) + rest;
    assert f[0] == Header(|r|)[0] && f[1] == Header(|r|)[1] && f[2] == Header(|r|)[2] && f[3] == Header(|r|)[3];
  }

  /** A file reads in exactly one way. */
  lemma {:induction false} ReadsOnce(file: Bytes, a: seq<Bytes>, s: Bytes, b: seq<Bytes>, t: Bytes)
    requires Reads(file, a, s) && Reads(file, b, t)
    ensures a == b && s == t
    decreases |a|
  {
    hide Frame, Encode;
    if a == [] && b == [] {
      ReadsNone(file, s);
      ReadsNone(file, t);
    } else if a == [] {
      ReadsNone(file, s);
      ReadsFirst(file, b, t);
    } else if b == [] {
      ReadsNone(file, t);
      ReadsFirst(file, a, s);
    } else {
      ReadsFirst(file, a, s);
      ReadsFirst(file, b, t);
      ReadsOnce(file[4 + Size(file)..], a[1..], s, b[1..], t);
      assert a == [a[0]] + a[1..] && b == [b[0]] + b[1..];
    }
  }

  lemma ReadsNone(file: Bytes, tail: Bytes)
    requires Reads(file, [], tail)
    ensures file == tail && !Whole(file)
  {
    assert [] + tail == tail;
  }

  /** The first record of a file is its first frame; the rest reads on. */
  lemma ReadsFirst(file: Bytes, rs: seq<Bytes>, tail: Bytes)
    requires Reads(file, rs, tail) && rs != []
    ensures Whole(file) && rs[0] == file[4..4 + Size(file)] && Reads(file[4 + Size(file)..], rs[1..], tail)
  {
    hide Frame, Whole;
    EncodeFirst(rs);
    var rest := Encode(rs[1..]) + tail;
    assert file == Frame(rs[0]) + rest;
    FrameSize(rs[0], rest);
  }

  /** Cutting an encoding at any byte leaves the frames before the cut whole,
      and after them a piece that is torn but never looks corrupt. */
  lemma {:induction false} TornTail(rs: seq<Bytes>, cut: nat) returns (j: nat)
    requires AllValid(rs) && cut <= |Encode(rs)|
    ensures j <= |rs| && AllValid(rs[..j]) && |Encode(rs[..j])| <= cut
    ensures j < |rs| ==> cut < |Encode(rs[..j + 1])|
    ensures Reads(Encode(rs)[..cut], rs[..j], Encode(rs)[|Encode(rs[..j])|..cut]) && !Corrupt(Encode(rs)[|Encode(rs[..j])|..cut])
    decreases |rs|
  {
    hide Frame, Whole, Corrupt;
    assert !Whole([]) && !Corrupt([]) by { Intact([]); }
    var file := Encode(rs);
    if cut == |file| {
      j := |rs|;
      assert rs[..j] == rs && file[..cut] == Encode(rs) + [];
    } else {
      var k := |rs| - 1;
      var before := Encode(rs[..k]);
      if cut < |before| {
        j := TornTail(rs[..k], cut);
        assert rs[..k][..j] == rs[..j] && rs[..k][..j + 1] == rs[..j + 1];
        assert file[..cut] == before[..cut] && file[|Encode(rs[..j])|..cut] == before[|Encode(rs[..j])|..cut];
      } else {
        j := k;
        assert rs[..j + 1] == rs;
        var tail := file[|before|..cut];
        assert file[..cut] == before + tail;
        TornFrame(rs[k], tail, cut - |before|);
      }
    }
  }

  lemma TornFrame(r: Bytes, tail: Bytes, n: nat)
    requires ValidRecord(r) && n < |Frame(r)| && tail == Frame(r)[..n]
    ensures !Whole(tail) && !Corrupt(tail)
  {
    if n >= 4 {
      var h := Header(|r|);
      assert tail[0] == h[0] && tail[1] == h[1] && tail[2] == h[2] && tail[3] == h[3];
    }
  }

  /** How many records a batch writes before its first invalid one. */
  function Writable(rs: seq<Bytes>): (k: nat)
    ensures k <= |rs| && AllValid(rs[..k]) && (k < |rs| ==> !ValidRecord(rs[k]))
  {
    if rs == [] || !ValidRecord(rs[0]) then 0 else
    var k := Writable(rs[1..]);
    assert rs[..k + 1] == [rs[0]] + rs[1..][..k];
    k + 1
  }

  /** How many whole records the first cut bytes of a batch hold. */
  function Fitting(rs: seq<Bytes>, cut: nat): (j: nat)
    requires AllValid(rs)
    ensures j <= |rs| && |Encode(rs[..j])| <= cut && (j < |rs| ==> cut < |Encode(rs[..j + 1])|)
    decreases |rs|
  {
    if |Encode(rs)| <= cut then
      assert rs[..|rs|] == rs;
      |rs|
    else
      var k := |rs| - 1;
      var j := Fitting(rs[..k], cut);
      assert rs[..k][..j] == rs[..j] && (j < k ==> rs[..k][..j + 1] == rs[..j + 1]) && (j == k ==> rs[..j + 1] == rs);
      j
  }

  /** A crash cut bytes into an append keeps the old records and as much of the
      batch as fits whole. */
  lemma AppendTorn(kept: seq<Bytes>, batch: seq<Bytes>, cut: nat)
    requires AllValid(kept) && AllValid(batch) && cut <= |Encode(batch)|
    ensures |Encode(kept)| + cut <= |Encode(kept + batch)|
    ensures exists tail :: Reads(Encode(kept + batch)[..|Encode(kept)| + cut], kept + batch[..Fitting(batch, cut)], tail) && !Corrupt(tail)
  {
    hide Encode, Frame, Corrupt, Whole, Reads;
    var all, at := kept + batch, |Encode(kept)| + cut;
    EncodeConcat(kept, batch);
    var i := TornTail(all, at);
    var j := Fitting(batch, cut);
    assert all[..|kept| + j] == kept + batch[..j];
    EncodeConcat(kept, batch[..j]);
    if i < |kept| + j { Ordered(all, i + 1, |kept| + j); assert false; }
    if j < |batch| {
      assert all[..|kept| + j + 1] == kept + batch[..j + 1];
      EncodeConcat(kept, batch[..j + 1]);
      if |kept| + j < i { Ordered(all, |kept| + j + 1, i); assert false; }
    }
  }

  lemma Ordered(rs: seq<Bytes>, i: nat, j: nat)
    requires AllValid(rs) && i <= j <= |rs|
    ensures |Encode(rs[..i])| <= |Encode(rs[..j])|
  {
    hide Encode;
    LongerEncoding(rs[..j], i);
    assert rs[..j][..i] == rs[..i];
  }

  lemma {:induction false} LongerEncoding(rs: seq<Bytes>, i: nat)
    requires AllValid(rs) && i <= |rs|
    ensures |Encode(rs[..i])| <= |Encode(rs)|
  {
    EncodeConcat(rs[..i], rs[i..]);
    assert rs[..i] + rs[i..] == rs;
  }

  // ------------------------------------------------------------------- file

  class WAL {
    var file: Bytes
    var open: bool

    constructor (contents: Bytes)
      ensures file == contents && open
    {
      file := contents;
      open := true;
    }

    /** Writes records up to the first invalid one; an error keeps what was written. */
    method AppendBatch(records: seq<Bytes>) returns (ok: bool)
      modifies this
      ensures open == old(open)
      ensures ok == (records == [] || (open && AllValid(records)))
      ensures file == if open then old(file) + Encode(records[..Writable(records)]) else old(file)
    {
      hide Encode, Frame, Writable;
      EncodeNone();
      if |records| == 0 { return true; }
      if !open { return false; }
      ghost var k := Writable(records);
      var i := 0;
      while i < |records|
        invariant 0 <= i <= k && open && file == old(file) + Encode(records[..k][..i])
      {
        assert i < k ==> records[..k][i] == records[i];
        assert records[..k][..k] == records[..k];
        var wrote := WriteRecord(records[i]);
        if !wrote { return false; }
        EncodeLast(records[..k], i);
        i := i + 1;
      }
      assert records[..k][..i] == records;
      ok := true;
    }

    method WriteRecord(record: Bytes) returns (ok: bool)
      modifies this
      ensures open == old(open) && ok == ValidRecord(record)
      ensures file == if ok then old(file) + Frame(record) else old(file)
    {
      if |record| == 0 || |record| > MAX_RECORD_SIZE { return false; }
      file := file + Header(|record|);
      file := file + record;
      ok := true;
    }

    /** Reads every complete record and truncates what a crash tore; a size no
        writer produces is an error that leaves the file alone. */
    method Replay() returns (r: Option<seq<Bytes>>)
      modifies this
      ensures open == old(open) && (!open ==> r.None? && file == old(file))
      ensures r.Some? ==> AllValid(r.value) && file == Encode(r.value)
      ensures r.Some? ==> exists tail :: Reads(old(file), r.value, tail) && !Corrupt(tail)
      ensures open && r.None? ==> file == old(file) && exists rs, tail :: Reads(file, rs, tail) && Corrupt(tail)
    {
      hide Encode, Frame;
      if !open { return None; }
      EncodeNone();
      var records: seq<Bytes> := [];
      var validBytes := 0;
      while true
        invariant 0 <= validBytes <= |file| && file == old(file) && open
        invariant AllValid(records) && file[..validBytes] == Encode(records)
        decreases |file| - validBytes
      {
        ghost var tail := file[validBytes..];
        assert file == Encode(records) + tail;
        if |file| - validBytes < 4 {
          assert Reads(file, records, tail);
          Truncate(validBytes);
          break;
        }
        var size := Size(file[validBytes..]);
        if size == 0 || size > MAX_RECORD_SIZE {
          assert Reads(file, records, tail) && Corrupt(tail);
          return None;
        }
        if |file| - validBytes - 4 < size {
          assert Reads(file, records, tail);
          Truncate(validBytes);
          break;
        }
        var record := file[validBytes + 4..validBytes + 4 + size];
        FrameOf(tail);
        assert record == tail[4..4 + size] && file[..validBytes + 4 + size] == file[..validBytes] + tail[..4 + size];
        assert (records + [record])[..|records|] == records && (records + [record])[..|records| + 1] == records + [record];
        EncodeLast(records + [record], |records|);
        records := records + [record];
        validBytes := validBytes + 4 + size;
      }
      r := Some(records);
    }

    method Truncate(size: nat)
      requires size <= |file|
      modifies this`file
      ensures file == old(file)[..size]
    {
      file := file[..size];
    }

    /** Rewrites the whole file or changes nothing. */
    method Replace(records: seq<Bytes>) returns (ok: bool)
      modifies this
      ensures open == old(open) && ok == (open && AllValid(records))
      ensures file == if ok then Encode(records) else old(file)
    {
      hide Encode, Frame;
      if !open { return false; }
      EncodeNone();
      var temporary := new WAL([]);
      var i := 0;
      while i < |records|
        invariant 0 <= i <= |records| && AllValid(records[..i]) && temporary.file == Encode(records[..i])
        invariant fresh(temporary) && file == old(file) && open == old(open)
      {
        var wrote := temporary.WriteRecord(records[i]);
        if !wrote { return false; }
        assert records[..i + 1][..i] == records[..i] && records[..i + 1][..i + 1] == records[..i + 1];
        EncodeLast(records[..i + 1], i);
        i := i + 1;
      }
      assert records[..i] == records;
      file := temporary.file;
      ok := true;
    }

    method Close()
      modifies this
      ensures !open && file == old(file)
    {
      open := false;
    }
  }

  /** A complete frame is its record's frame. */
  lemma FrameOf(tail: Bytes)
    requires Whole(tail)
    ensures var r := tail[4..4 + Size(tail)]; ValidRecord(r) && tail[..4 + Size(tail)] == Frame(r)
  {
    var n := Size(tail);
    HeaderUnique(tail[..4]);
  }

  lemma HeaderUnique(h: Bytes)
    requires |h| == 4
    ensures Size(h) < 0x1_0000_0000 && Header(Size(h)) == h
  {
    var a, b, c, d := h[0] as nat, h[1] as nat, h[2] as nat, h[3] as nat;
    var n := Size(h);
    assert n / 0x100_0000 == a;
    assert n / 0x1_0000 == a * 0x100 + b;
    assert n / 0x100 == a * 0x1_0000 + b * 0x100 + c;
  }

  /** The torn-tail round trip: a file cut at any byte replays to exactly the
      whole records before the cut, and what is appended next replays after them. */
  method CrashAndAppend(rs: seq<Bytes>, cut: nat, more: seq<Bytes>) returns (first: Option<seq<Bytes>>, second: Option<seq<Bytes>>)
    requires AllValid(rs) && AllValid(more) && cut <= |Encode(rs)|
    ensures var kept := rs[..Fitting(rs, cut)]; first == Some(kept) && second == Some(kept + more)
  {
    hide Encode, Whole, Corrupt, Frame, Reads;
    ghost var kept := rs[..Fitting(rs, cut)];
    EncodeNone();
    AppendTorn([], rs, cut);
    assert [] + rs == rs && [] + kept == kept;
    ghost var tail :| Reads(Encode(rs)[..cut], kept, tail) && !Corrupt(tail);
    ReadsBack(Encode(rs)[..cut], kept, tail);
    var w := new WAL(Encode(rs)[..cut]);
    first := w.Replay();
    assert more[..Writable(more)] == more;
    var ok := w.AppendBatch(more);
    EncodeConcat(kept, more);
    Intact(kept + more);
    second := w.Replay();
    ReadsBack(Encode(kept + more), kept + more, []);
  }

  lemma ReadsBack(file: Bytes, rs: seq<Bytes>, tail: Bytes)
    requires Reads(file, rs, tail)
    ensures forall a, s :: Reads(file, a, s) ==> a == rs && s == tail
  {
    forall a, s | Reads(file, a, s) ensures a == rs && s == tail { ReadsOnce(file, a, s, rs, tail); }
  }

  lemma Intact(rs: seq<Bytes>)
    requires AllValid(rs)
    ensures Reads(Encode(rs), rs, []) && !Corrupt([])
  {
    assert Encode(rs) + [] == Encode(rs);
  }
}
