/** The key-value state machine that committed entries drive, and its whole-map images. */
module KvStore {
  import opened Entries

  type Store = map<string, string>

  /** Bytes of a state-machine image; the encoding itself is not modelled. */
  datatype Payload = NoBytes | Image(kv: Store)

  /** Effect of an entry the state machine accepts. */
  function Apply(s: Store, e: LogEntry): Store {
    if e.op == SET then s[e.key := e.value]
    else if e.op == DELETE then s - {e.key}
    else s
  }

  /** Applying as the store does it: an empty key, an over-long value or an
      unknown operation is refused. */
  function TryApply(s: Store, e: LogEntry, limit: nat): (r: Option<Store>)
    ensures Fits(e, limit) ==> r == Some(Apply(s, e))
  {
    if e.op == NOOP then Some(s)
    else if e.op == SET then
      if e.key == "" || |e.value| > limit then None else Some(s[e.key := e.value])
    else if e.op == DELETE then Some(s - {e.key})
    else None
  }

  function Fold(log: Log): Store {
    if log == [] then map[] else Apply(Fold(log[..|log| - 1]), log[|log| - 1])
  }

  /** What Restore checks before it replaces the map. */
  predicate Restorable(p: Payload, limit: nat) {
    p.Image? && forall k :: k in p.kv ==> k != "" && |p.kv[k]| <= limit
  }

  lemma FoldStep(h: Log, i: nat)
    requires i < |h|
    ensures Fold(h[..i + 1]) == Apply(Fold(h[..i]), h[i])
  {
    assert h[..i + 1][..i] == h[..i];
  }

  /** Every image of accepted entries can be restored. */
  lemma {:induction false} FoldRestorable(log: Log, limit: nat)
    requires AllFit(log, limit)
    ensures Restorable(Image(Fold(log)), limit)
  {
    if log != [] {
      FoldRestorable(log[..|log| - 1], limit);
      assert Fits(log[|log| - 1], limit);
    }
  }

  // -------------------------------------------- what a fold holds, on the log

  /** e writes or deletes key k. */
  predicate Names(e: LogEntry, k: string) {
    (e.op == SET || e.op == DELETE) && e.key == k
  }

  /** Entry i is the last of the log to name k. */
  predicate LastNames(log: Log, k: string, i: int) {
    0 <= i < |log| && Names(log[i], k) && forall j :: i < j < |log| ==> !Names(log[j], k)
  }

  /** The store binds k to v if and only if the last entry that names k is SET k v. */
  lemma {:induction false} FoldHolds(log: Log, k: string, v: string)
    ensures k in Fold(log) && Fold(log)[k] == v <==> exists i :: LastNames(log, k, i) && log[i].op == SET && log[i].value == v
  {
    if log != [] {
      var n := |log| - 1;
      var rest, e := log[..n], log[n];
      FoldHolds(rest, k, v);
      OnlyItsKey(Fold(rest), e, k);
      if Names(e, k) {
        assert LastNames(log, k, n);
        assert forall i :: LastNames(log, k, i) ==> i == n;
      } else {
        forall i ensures LastNames(log, k, i) <==> LastNames(rest, k, i) { LastKept(log, k, i); }
        assert forall i :: LastNames(rest, k, i) ==> rest[i] == log[i];
      }
    }
  }

  lemma LastKept(log: Log, k: string, i: int)
    requires log != [] && !Names(log[|log| - 1], k)
    ensures LastNames(log, k, i) <==> LastNames(log[..|log| - 1], k, i)
  {
    var rest := log[..|log| - 1];
    assert forall j :: 0 <= j < |rest| ==> rest[j] == log[j];
  }

  /** An entry touches no key but its own: SET binds it, DELETE unbinds it. */
  lemma OnlyItsKey(s: Store, e: LogEntry, k: string)
    ensures !Names(e, k) ==> ((k in Apply(s, e)) == (k in s)) && (k in s ==> Apply(s, e)[k] == s[k])
    ensures Names(e, k) ==> ((k in Apply(s, e)) == (e.op == SET)) && (e.op == SET ==> Apply(s, e)[k] == e.value)
  {
  }

  /** The store refuses exactly an empty key or an over-long value on SET, and any unknown operation. */
  lemma RefusesIff(s: Store, e: LogEntry, limit: nat)
    ensures TryApply(s, e, limit).None? <==>
      (e.op == SET && (e.key == "" || |e.value| > limit)) || e.op !in {NOOP, SET, DELETE}
    ensures TryApply(s, e, limit).Some? ==> TryApply(s, e, limit).value == Apply(s, e)
  {
  }

  /** What Restore accepts is exactly what folding accepted entries can produce. */
  lemma RestorableIff(p: Payload, limit: nat)
    ensures Restorable(p, limit) <==> p.Image? && exists log :: AllFit(log, limit) && Fold(log) == p.kv
  {
    if p.Image? {
      if Restorable(p, limit) { var log := Spelled(p.kv, limit); }
      if exists log :: AllFit(log, limit) && Fold(log) == p.kv {
        var log :| AllFit(log, limit) && Fold(log) == p.kv;
        FoldRestorable(log, limit);
      }
    }
  }

  /** A store written out, one SET for each key. */
  lemma {:induction false} Spelled(kv: Store, limit: nat) returns (log: Log)
    requires Restorable(Image(kv), limit)
    ensures AllFit(log, limit) && Fold(log) == kv
    decreases kv.Keys
  {
    if kv == map[] {
      log := [];
    } else {
      if forall x :: x !in kv { assert false; }
      var k :| k in kv;
      var less := kv - {k};
      assert less.Keys == kv.Keys - {k};
      var rest := Spelled(less, limit);
      var e := LogEntry(1, 0, SET, k, kv[k]);
      log := rest + [e];
      assert log[..|log| - 1] == rest;
      assert less[k := kv[k]] == kv;
    }
  }

  /** The in-memory store. */
  class MemoryStore {
    var data: Store
    const limit: nat

    constructor (limit: nat)
      ensures data == map[] && this.limit == limit
    {
      this.limit := limit;
      data := map[];
    }

    method Get(key: string) returns (r: Option<string>)
      ensures r == if key in data then Some(data[key]) else None
    {
      if key in data { r := Some(data[key]); } else { r := None; }
    }

    method Set(key: string, value: string) returns (ok: bool)
      modifies this
      ensures ok == (key != "" && |value| <= limit)
      ensures data == if ok then old(data)[key := value] else old(data)
    {
      if key == "" { return false; }
      if |value| > limit { return false; }
      data := data[key := value];
      ok := true;
    }

    method Delete(key: string)
      modifies this
      ensures data == old(data) - {key}
    {
      data := data - {key};
    }

    method Snapshot() returns (p: Payload)
      ensures p == Image(data)
    {
      p := Image(data);
    }

    /** Validates every pair, then replaces the whole map. */
    method Restore(p: Payload) returns (ok: bool)
      modifies this
      ensures ok <==> Restorable(p, limit)
      ensures data == if ok then p.kv else old(data)
    {
      if p.NoBytes? { return false; }
      var todo := p.kv.Keys;
      while todo != {}
        invariant todo <= p.kv.Keys && data == old(data)
        invariant forall k :: k in p.kv && k !in todo ==> k != "" && |p.kv[k]| <= limit
        decreases todo
      {
        if forall x :: x !in todo { assert false; }
        var k :| k in todo;
        if k == "" || |p.kv[k]| > limit { return false; }
        todo := todo - {k};
      }
      data := p.kv;
      ok := true;
    }

    /** Entry dispatch of the store applier. */
    method ApplyEntry(e: LogEntry) returns (ok: bool)
      modifies this
      ensures ok == TryApply(old(data), e, limit).Some?
      ensures data == if ok then TryApply(old(data), e, limit).value else old(data)
    {
      if e.op == NOOP { ok := true; }
      else if e.op == SET { ok := Set(e.key, e.value); }
      else if e.op == DELETE { Delete(e.key); ok := true; }
      else { ok := false; }
    }
  }
}
