// The chunked header store: what one write transaction does, how pending writes coalesce, what the suffix write
// puts down, and what is on disk once every write of a run has landed.

module HeaderStore {
  import opened Base
  import opened Headers

  type Chunks = map<int, seq<Header>>

  datatype Head = Head(tip: int, tipHash: Digest)
  datatype Put = Put(k: int, records: seq<Header>)
  datatype StoreWrite = StoreWrite(put: seq<Put>, del: seq<int>, deleteAbove: Option<int>, head: Option<Head>)

  // ---- One transaction ----

  // A list of puts as a map: IndexedDB keeps the last value put under a key.
  function PutMap(ps: seq<Put>): Chunks {
    if ps == [] then map[] else PutMap(ps[..|ps| - 1])[ps[|ps| - 1].k := ps[|ps| - 1].records]
  }

  function DropAbove(s: Chunks, d: Option<int>): Chunks {
    if d.None? then s else map k | k in s && k <= d.value :: s[k]
  }

  function Keys(ks: seq<int>): set<int> { set k | k in ks }

  // The chunks after a committed transaction: the truncation first, then the deletes, then the puts.
  function Apply(s: Chunks, w: StoreWrite): Chunks {
    (DropAbove(s, w.deleteAbove) - Keys(w.del)) + PutMap(w.put)
  }

  function ApplyHead(h: Option<Head>, w: StoreWrite): Option<Head> { if w.head.Some? then w.head else h }

  predicate KeyInRange(k: int) { FIRST_CHUNK <= k <= MAX_CHUNK }

  predicate IsHeadHint(h: Head) {
    && h.tip >= FLOOR_HEIGHT
    && |h.tipHash| == 66 && h.tipHash[..2] == "0x"
    && forall c :: c in h.tipHash[2..] ==> '0' <= c <= '9' || 'a' <= c <= 'f'
  }

  // The checks `write` makes before it opens a transaction.
  predicate Accepted(w: StoreWrite) {
    && (forall p :: p in w.put ==> KeyInRange(p.k))
    && (forall k :: k in w.del ==> KeyInRange(k))
    && (w.deleteAbove.Some? ==> KeyInRange(w.deleteAbove.value))
    && (w.head.Some? ==> IsHeadHint(w.head.value))
  }

  // A write is refused for a key that is not a whole chunk from 7 to 4103 and for a head below the floor or with a hash that
  // is not 0x and 64 lower-case hex digits, and for nothing else.
  lemma AcceptedIff(w: StoreWrite)
    ensures Accepted(w) <==>
      && (forall p :: p in w.put ==> 7 <= p.k <= 4103) && (forall k :: k in w.del ==> 7 <= k <= 4103)
      && (w.deleteAbove.Some? ==> 7 <= w.deleteAbove.value <= 4103)
      && (w.head.Some? ==> w.head.value.tip >= 29_960 && |w.head.value.tipHash| == 66 && w.head.value.tipHash[0] == '0' && w.head.value.tipHash[1] == 'x'
                           && forall c :: c in w.head.value.tipHash[2..] ==> c in "0123456789abcdef")
  {
    if w.head.Some? && |w.head.value.tipHash| >= 2 {
      var t := w.head.value.tipHash;
      assert t[..2] == [t[0], t[1]];
    }
    forall c: char ensures '0' <= c <= '9' || 'a' <= c <= 'f' <==> c in "0123456789abcdef" { HexDigits(c); }
  }

  lemma HexDigits(c: char)
    ensures '0' <= c <= '9' || 'a' <= c <= 'f' <==> c in "0123456789abcdef"
  {
    var digits := "0123456789abcdef";
    if '0' <= c <= '9' { assert digits[c as int - 48] == c; }
    if 'a' <= c <= 'f' { assert digits[c as int - 87] == c; }
  }

  class Store {
    var chunks: Chunks
    var head: Option<Head>

    constructor ()
      ensures chunks == map[] && head == None
    {
      chunks, head := map[], None;
    }

    // One write. `commits` is the fate of the transaction, which the caller does not choose.
    method Write(w: StoreWrite, commits: bool) returns (ok: bool)
      modifies this
      ensures ok == (Accepted(w) && commits)
      ensures chunks == if ok then Apply(old(chunks), w) else old(chunks)
      ensures head == if ok then ApplyHead(old(head), w) else old(head)
    {
      ok := Accepted(w) && commits;
      if !ok { return; }
      var c := DropAbove(chunks, w.deleteAbove);
      ghost var dropped := c;
      for i := 0 to |w.del|
        invariant c == dropped - Keys(w.del[..i])
      {
        c := c - {w.del[i]};
        assert w.del[..i + 1] == w.del[..i] + [w.del[i]];
      }
      assert w.del[..|w.del|] == w.del;
      ghost var trimmed := c;
      for i := 0 to |w.put|
        invariant c == trimmed + PutMap(w.put[..i])
      {
        c := c[w.put[i].k := w.put[i].records];
        assert w.put[..i + 1][..i] == w.put[..i];
      }
      assert w.put[..|w.put|] == w.put;
      chunks := c;
      head := ApplyHead(head, w);
    }
  }

  // ---- Coalescing two pending writes ----

  // Map.set on an insertion-ordered map, kept as its list of entries.
  function Upsert(m: seq<Put>, p: Put): seq<Put> {
    if m == [] then [p]
    else
      var init, last := m[..|m| - 1], m[|m| - 1];
      if last.k == p.k then init + [p] else Upsert(init, p) + [last]
  }

  function UpsertAll(m: seq<Put>, ps: seq<Put>): seq<Put> {
    if ps == [] then m else Upsert(UpsertAll(m, ps[..|ps| - 1]), ps[|ps| - 1])
  }

  // The older puts a newer truncation leaves in place.
  function KeepUpTo(ps: seq<Put>, d: Option<int>): seq<Put> {
    if ps == [] then []
    else
      var rest := KeepUpTo(ps[..|ps| - 1], d);
      if d.None? || ps[|ps| - 1].k <= d.value then rest + [ps[|ps| - 1]] else rest
  }

  // `newer` after `older` as one write, or an error when either carries deletes.
  function MergeStoreWrites(older: StoreWrite, newer: StoreWrite): Result<StoreWrite, string> {
    if older.del != [] || newer.del != [] then Err("mergeStoreWrites: suffix writes carry no del")
    else Ok(StoreWrite(
      UpsertAll(UpsertAll([], KeepUpTo(older.put, newer.deleteAbove)), newer.put), [],
      if newer.deleteAbove.Some? then newer.deleteAbove else older.deleteAbove,
      if newer.head.Some? then newer.head else older.head))
  }

  lemma {:induction false} PutMapConcat(a: seq<Put>, b: seq<Put>)
    ensures PutMap(a + b) == PutMap(a) + PutMap(b)
  {
    if b == [] {
      assert a + b == a;
    } else {
      assert (a + b)[..|a + b| - 1] == a + b[..|b| - 1];
      PutMapConcat(a, b[..|b| - 1]);
    }
  }

  lemma {:induction false} PutMapKeys(ps: seq<Put>, k: int)
    requires k in PutMap(ps)
    ensures exists p :: p in ps && p.k == k
  {
    if k == ps[|ps| - 1].k {
      assert ps[|ps| - 1] in ps;
    } else {
      PutMapKeys(ps[..|ps| - 1], k);
    }
  }

  lemma {:induction false} UpsertIsUpdate(m: seq<Put>, p: Put)
    ensures PutMap(Upsert(m, p)) == PutMap(m)[p.k := p.records]
  {
    if m != [] {
      var init, last := m[..|m| - 1], m[|m| - 1];
      if last.k == p.k {
        assert (init + [p])[..|init|] == init;
      } else {
        UpsertIsUpdate(init, p);
        assert (Upsert(init, p) + [last])[..|Upsert(init, p)|] == Upsert(init, p);
      }
    }
  }

  lemma {:induction false} UpsertAllIsUnion(m: seq<Put>, ps: seq<Put>)
    ensures PutMap(UpsertAll(m, ps)) == PutMap(m) + PutMap(ps)
  {
    if ps != [] {
      UpsertAllIsUnion(m, ps[..|ps| - 1]);
      UpsertIsUpdate(UpsertAll(m, ps[..|ps| - 1]), ps[|ps| - 1]);
    }
  }

  lemma {:induction false} KeepUpToIsDrop(ps: seq<Put>, d: Option<int>)
    ensures PutMap(KeepUpTo(ps, d)) == DropAbove(PutMap(ps), d)
  {
    if ps != [] {
      var rest := KeepUpTo(ps[..|ps| - 1], d);
      KeepUpToIsDrop(ps[..|ps| - 1], d);
      if d.None? || ps[|ps| - 1].k <= d.value {
        assert (rest + [ps[|ps| - 1]])[..|rest|] == rest;
      }
    }
  }

  // The chunks a merged write puts.
  // Writes that delete single chunks are not merged; nothing else is refused.
  lemma MergesIff(older: StoreWrite, newer: StoreWrite)
    ensures MergeStoreWrites(older, newer).Ok? <==> older.del == [] && newer.del == []
    ensures MergeStoreWrites(older, newer).Ok? ==> MergeStoreWrites(older, newer).value.del == []
  {
  }

  lemma MergeShape(older: StoreWrite, newer: StoreWrite)
    requires older.del == [] && newer.del == []
    ensures var m := MergeStoreWrites(older, newer).value;
      PutMap(m.put) == DropAbove(PutMap(older.put), newer.deleteAbove) + PutMap(newer.put)
  {
    KeepUpToIsDrop(older.put, newer.deleteAbove);
    UpsertAllIsUnion([], KeepUpTo(older.put, newer.deleteAbove));
    UpsertAllIsUnion(UpsertAll([], KeepUpTo(older.put, newer.deleteAbove)), newer.put);
  }

  // The stored keys the merge keeps although the older write, run by itself, would have deleted them: above the
  // older truncation, not above the newer one, and put by neither.
  ghost predicate Covered(s: Chunks, older: StoreWrite, newer: StoreWrite) {
    older.deleteAbove.Some? && newer.deleteAbove.Some? ==>
      forall k :: k in s && older.deleteAbove.value < k <= newer.deleteAbove.value
        ==> k in PutMap(older.put) || k in PutMap(newer.put)
  }

  // What a write leaves under one key.
  lemma ApplyAt(s: Chunks, w: StoreWrite, k: int)
    ensures k in Apply(s, w) <==>
      k in PutMap(w.put) || (k in s && k !in w.del && (w.deleteAbove.Some? ==> k <= w.deleteAbove.value))
    ensures k in PutMap(w.put) ==> Apply(s, w)[k] == PutMap(w.put)[k]
    ensures k in Apply(s, w) && k !in PutMap(w.put) ==> Apply(s, w)[k] == s[k]
  {
  }

  // Both sides of the merge under one key.
  lemma MergeAt(s: Chunks, older: StoreWrite, newer: StoreWrite, k: int)
    requires older.del == [] && newer.del == []
    ensures var one := Apply(s, MergeStoreWrites(older, newer).value);
      var two := Apply(Apply(s, older), newer);
      var gap := k in s && older.deleteAbove.Some? && newer.deleteAbove.Some?
        && older.deleteAbove.value < k <= newer.deleteAbove.value
        && k !in PutMap(older.put) && k !in PutMap(newer.put);
      (gap ==> k in one && k !in two) &&
      (!gap ==> (k in one <==> k in two) && (k in one ==> one[k] == two[k]))
  {
    MergeShape(older, newer);
    ApplyAt(s, MergeStoreWrites(older, newer).value, k);
    ApplyAt(s, older, k);
    ApplyAt(Apply(s, older), newer, k);
  }

  // The merge equals running both writes in order exactly when no stored key lies in that gap.
  lemma MergeIsSequential(s: Chunks, h: Option<Head>, older: StoreWrite, newer: StoreWrite)
    requires older.del == [] && newer.del == []
    ensures Apply(s, MergeStoreWrites(older, newer).value) == Apply(Apply(s, older), newer) <==> Covered(s, older, newer)
    ensures ApplyHead(h, MergeStoreWrites(older, newer).value) == ApplyHead(ApplyHead(h, older), newer)
  {
    var one, two := Apply(s, MergeStoreWrites(older, newer).value), Apply(Apply(s, older), newer);
    forall k ensures Covered(s, older, newer) ==> (k in one <==> k in two) && (k in one ==> one[k] == two[k]) {
      MergeAt(s, older, newer, k);
    }
    if !Covered(s, older, newer) {
      var k :| k in s && older.deleteAbove.value < k <= newer.deleteAbove.value
               && k !in PutMap(older.put) && k !in PutMap(newer.put);
      MergeAt(s, older, newer, k);
    }
  }
}
