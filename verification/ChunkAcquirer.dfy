// Getting one anchored chunk: from the cache of verified chunks, from the store, or fetched, and in every case only after
// it links to its two baked hashes; and the least-recently-used cache itself.

module ChunkAcquirer {
  import opened Base
  import opened Headers
  import opened HeaderStore
  import opened HeaderChain
  import SuffixStore

  // ---- The cache ----

  datatype Cached = Cached(k: int, records: seq<Header>)

  function CacheKeys(m: seq<Cached>): seq<int> { seq(|m|, i requires 0 <= i < |m| => m[i].k) }

  function Lookup(m: seq<Cached>, k: int): (r: Option<seq<Header>>)
    ensures r.Some? ==> Cached(k, r.value) in m
    ensures r.None? <==> k !in CacheKeys(m)
  {
    if m == [] then None
    else if m[0].k == k then (assert CacheKeys(m)[0] == k; Some(m[0].records))
    else
      assert CacheKeys(m) == [m[0].k] + CacheKeys(m[1..]);
      Lookup(m[1..], k)
  }

  function Dropped(m: seq<Cached>, k: int): seq<Cached> {
    if m == [] then [] else Dropped(m[..|m| - 1], k) + if m[|m| - 1].k == k then [] else [m[|m| - 1]]
  }

  function DroppedKey(s: seq<int>, k: int): seq<int> {
    if s == [] then [] else DroppedKey(s[..|s| - 1], k) + if s[|s| - 1] == k then [] else [s[|s| - 1]]
  }

  function LastOf<T>(s: seq<T>, n: nat): seq<T> { if |s| <= n then s else s[|s| - n..] }

  // The keys used, each where it was last used.
  function ByLastUse(uses: seq<int>): seq<int> {
    if uses == [] then [] else DroppedKey(ByLastUse(uses[..|uses| - 1]), uses[|uses| - 1]) + [uses[|uses| - 1]]
  }

  lemma {:induction false} DroppedKeys(m: seq<Cached>, k: int)
    ensures CacheKeys(Dropped(m, k)) == DroppedKey(CacheKeys(m), k)
    ensures forall c :: c in Dropped(m, k) ==> c in m
  {
    if m != [] {
      var init, c := m[..|m| - 1], m[|m| - 1];
      DroppedKeys(init, k);
      assert CacheKeys(m) == CacheKeys(init) + [c.k];
      assert CacheKeys(Dropped(init, k) + [c]) == CacheKeys(Dropped(init, k)) + [c.k];
      assert (CacheKeys(init) + [c.k])[..|init|] == CacheKeys(init);
    }
  }

  lemma {:induction false} DroppedDistinct(s: seq<int>, k: int)
    requires Distinct(s)
    ensures Distinct(DroppedKey(s, k)) && k !in DroppedKey(s, k) && forall x :: x in DroppedKey(s, k) ==> x in s
    ensures k !in s ==> DroppedKey(s, k) == s
    ensures k in s ==> |DroppedKey(s, k)| == |s| - 1
  {
    if s != [] {
      var init, x := s[..|s| - 1], s[|s| - 1];
      assert s == init + [x];
      DroppedDistinct(init, k);
      assert x !in init;
    }
  }

  lemma {:induction false} ByLastUseDistinct(uses: seq<int>)
    ensures Distinct(ByLastUse(uses))
  {
    if uses != [] {
      ByLastUseDistinct(uses[..|uses| - 1]);
      DroppedDistinct(ByLastUse(uses[..|uses| - 1]), uses[|uses| - 1]);
    }
  }

  lemma {:induction false} DroppedSplit(a: seq<int>, b: seq<int>, k: int)
    ensures DroppedKey(a + b, k) == DroppedKey(a, k) + DroppedKey(b, k)
  {
    if b == [] { assert a + b == a; }
    else {
      assert (a + b)[..|a + b| - 1] == a + b[..|b| - 1];
      DroppedSplit(a, b[..|b| - 1], k);
    }
  }

  lemma DistinctParts(a: seq<int>, b: seq<int>, k: int)
    requires Distinct(a + b)
    ensures Distinct(a) && Distinct(b) && !(k in a && k in b)
  {
    forall i, j | 0 <= i < j < |a| ensures a[i] != a[j] { assert (a + b)[i] == a[i] && (a + b)[j] == a[j]; }
    forall i, j | 0 <= i < j < |b| ensures b[i] != b[j] { assert (a + b)[|a| + i] == b[i] && (a + b)[|a| + j] == b[j]; }
    forall i, j | 0 <= i < |a| && 0 <= j < |b| ensures a[i] != b[j] { assert (a + b)[i] == a[i] && (a + b)[|a| + j] == b[j]; }
  }

  lemma LastOfSplit(a: seq<int>, b: seq<int>, n: nat)
    requires |b| >= n
    ensures LastOf(a + b, n) == LastOf(b, n)
  {
    assert (a + b)[|a| + |b| - n..] == b[|b| - n..];
  }

  // Using a key in the cut list and cutting again is cutting the whole list's next state.
  lemma {:induction false} UseCut(s: seq<int>, n: nat, k: int)
    requires Distinct(s) && n > 0
    ensures LastOf(DroppedKey(LastOf(s, n), k) + [k], n) == LastOf(DroppedKey(s, k) + [k], n)
  {
    if |s| > n {
      var a, b := s[..|s| - n], s[|s| - n..];
      assert s == a + b;
      hide DroppedKey, Distinct;
      DroppedSplit(a, b, k);
      DistinctParts(a, b, k);
      DroppedDistinct(b, k);
      var rest := DroppedKey(b, k) + [k];
      assert DroppedKey(s, k) + [k] == DroppedKey(a, k) + rest;
      LastOfSplit(DroppedKey(a, k), rest, n);
    }
  }

  class ChunkLru {
    const capacity: nat
    var m: seq<Cached>          // the map's entries, oldest use first
    ghost var uses: seq<int>    // every hit and every store, in order

    // It holds the last `capacity` chunks used, and no others.
    ghost predicate Valid() reads this { capacity > 0 && CacheKeys(m) == LastOf(ByLastUse(uses), capacity) }

    constructor (capacity: nat)
      requires capacity > 0
      ensures Valid() && m == [] && this.capacity == capacity
    {
      this.capacity, m, uses := capacity, [], [];
    }

    // A hit moves to the newest place.
    method Get(k: int) returns (r: Option<seq<Header>>)
      requires Valid()
      modifies this
      ensures Valid() && r == Lookup(old(m), k)
      ensures uses == old(uses) + if r.Some? then [k] else []
      ensures forall c :: c in m ==> c in old(m)
      ensures if r.Some? then m != [] && m[|m| - 1] == Cached(k, r.value) else m == old(m)
    {
      hide LastOf, ByLastUse, Dropped, CacheKeys;
      r := Lookup(m, k);
      if r.None? { return; }
      Renewed(m, uses, Cached(k, r.value), capacity);
      m := Dropped(m, k) + [Cached(k, r.value)];
      uses := uses + [k];
    }

    method Set(k: int, v: seq<Header>)
      requires Valid()
      modifies this
      ensures Valid() && uses == old(uses) + [k]
      ensures forall c :: c in m ==> c in old(m) || c == Cached(k, v)
      ensures m != [] && m[|m| - 1] == Cached(k, v)
    {
      hide LastOf, ByLastUse, Dropped, CacheKeys;
      Stored(m, uses, Cached(k, v), capacity);
      var full := Dropped(m, k) + [Cached(k, v)];
      m := Trimmed(full, capacity);
      NewestKept(full, capacity);
      uses := uses + [k];
    }
  }

  lemma NewestKept<T>(s: seq<T>, n: nat)
    requires s != [] && n > 0
    ensures LastOf(s, n) != [] && LastOf(s, n)[|LastOf(s, n)| - 1] == s[|s| - 1]
  {
  }

  // The oldest entries go while there are too many.
  method Trimmed(full: seq<Cached>, capacity: nat) returns (m: seq<Cached>)
    ensures m == LastOf(full, capacity)
  {
    m := full;
    while |m| > capacity
      invariant |m| <= |full| && m == full[|full| - |m|..] && (|m| >= capacity || m == full)
    {
      m := m[1..];
    }
  }

  lemma Stored(m: seq<Cached>, uses: seq<int>, c: Cached, n: nat)
    requires n > 0 && CacheKeys(m) == LastOf(ByLastUse(uses), n)
    ensures CacheKeys(LastOf(Dropped(m, c.k) + [c], n)) == LastOf(ByLastUse(uses + [c.k]), n)
    ensures forall x :: x in LastOf(Dropped(m, c.k) + [c], n) ==> x in m || x == c
  {
    hide ByLastUse, Dropped, DroppedKey;
    DroppedKeys(m, c.k);
    UsedOnce(uses, c.k, n);
    var full := Dropped(m, c.k) + [c];
    assert CacheKeys(full) == CacheKeys(Dropped(m, c.k)) + [c.k];
    assert CacheKeys(LastOf(full, n)) == LastOf(CacheKeys(full), n);
  }

  lemma Renewed(m: seq<Cached>, uses: seq<int>, c: Cached, n: nat)
    requires n > 0 && CacheKeys(m) == LastOf(ByLastUse(uses), n) && c in m
    ensures CacheKeys(Dropped(m, c.k) + [c]) == LastOf(ByLastUse(uses + [c.k]), n)
    ensures forall x :: x in Dropped(m, c.k) + [c] ==> x in m
  {
    hide ByLastUse, Dropped, DroppedKey;
    Stored(m, uses, c, n);
    DroppedKeys(m, c.k);
    CachedOnce(m, uses, c, n);
  }

  lemma CachedOnce(m: seq<Cached>, uses: seq<int>, c: Cached, n: nat)
    requires CacheKeys(m) == LastOf(ByLastUse(uses), n) && c in m
    ensures |Dropped(m, c.k)| == |m| - 1 && |m| <= n
  {
    hide Dropped, DroppedKey;
    DroppedKeys(m, c.k);
    ByLastUseDistinct(uses);
    var s := ByLastUse(uses);
    assert forall i, j :: 0 <= i < j < |m| ==> CacheKeys(m)[i] != CacheKeys(m)[j];
    DroppedDistinct(CacheKeys(m), c.k);
    var i :| 0 <= i < |m| && m[i] == c;
    assert CacheKeys(m)[i] == c.k;
    assert |CacheKeys(Dropped(m, c.k))| == |Dropped(m, c.k)|;
  }

  lemma UsedOnce(uses: seq<int>, k: int, n: nat)
    requires n > 0
    ensures LastOf(ByLastUse(uses + [k]), n) == LastOf(DroppedKey(LastOf(ByLastUse(uses), n), k) + [k], n)
  {
    assert (uses + [k])[..|uses|] == uses;
    ByLastUseDistinct(uses);
    UseCut(ByLastUse(uses), n, k);
  }

  // ---- Acquiring ----

  datatype Failure = OutOfRange | FetchFailed | Unverified

  // What one acquisition comes to: the cached chunk, else the stored one if it links, else the fetched one if it does; a
  // stored one that does not link is deleted, and a fetched one that does is stored.
  ghost predicate Acquired(spec: ChunkSpec, hash: Header -> Digest, hit: Option<seq<Header>>, stored: Option<seq<Header>>, fetched: Option<seq<Header>>,
                           r: Result<seq<Header>, Failure>, writes: seq<StoreWrite>) {
    var dropped := if stored.Some? then [StoreWrite([], [spec.k], None, None)] else [];
    if hit.Some? then r == Ok(hit.value) && writes == []
    else if stored.Some? && VerifiedChunk(stored.value, spec, hash) then r == Ok(stored.value) && writes == []
    else if fetched.Some? && VerifiedChunk(fetched.value, spec, hash)
    then r == Ok(fetched.value) && writes == dropped + [StoreWrite([Put(spec.k, fetched.value)], [], None, None)]
    else r == Err(if fetched.None? then FetchFailed else Unverified) && writes == dropped
  }

  class Acquirer {
    const anchors: seq<Digest>
    const floorHash: Digest
    const hash: Header -> Digest
    const lru: ChunkLru

    ghost predicate Valid() reads this, lru {
      lru.Valid() && forall c :: c in lru.m ==> SpecOf(c.k, anchors, floorHash).Some? && VerifiedChunk(c.records, SpecOf(c.k, anchors, floorHash).value, hash)
    }

    constructor (anchors: seq<Digest>, floorHash: Digest, hash: Header -> Digest)
      ensures Valid() && this.anchors == anchors && this.floorHash == floorHash && this.hash == hash && fresh(lru)
    {
      this.anchors, this.floorHash, this.hash := anchors, floorHash, hash;
      lru := new ChunkLru(8);
    }

    // The verified chunk holding `height`. `stored` is what the store holds for it, `fetched` what a source serves.
    method Acquire(height: int, stored: Option<seq<Header>>, fetched: Option<seq<Header>>)
      returns (r: Result<seq<Header>, Failure>, writes: seq<StoreWrite>)
      requires Valid()
      modifies lru
      ensures Valid()
      ensures r.Ok? ==> height >= FLOOR_HEIGHT && SpecOf(ChunkOf(height), anchors, floorHash).Some?
                        && VerifiedChunk(r.value, SpecOf(ChunkOf(height), anchors, floorHash).value, hash)
      ensures r == Err(OutOfRange) <==> height < FLOOR_HEIGHT || SpecOf(ChunkOf(height), anchors, floorHash).None?
      ensures forall w :: w in writes ==> SuffixStore.AnchoredWrite(w, FIRST_CHUNK + |anchors| - 1)
      ensures forall w, p :: w in writes && p in w.put ==> r.Ok? && p == Put(ChunkOf(height), r.value)
      ensures height >= FLOOR_HEIGHT && SpecOf(ChunkOf(height), anchors, floorHash).Some? ==>
        && (r.Ok? ==> lru.m != [] && lru.m[|lru.m| - 1] == Cached(ChunkOf(height), r.value))
        && Acquired(SpecOf(ChunkOf(height), anchors, floorHash).value, hash, old(Lookup(lru.m, ChunkOf(height))), stored, fetched, r, writes)
    {
      hide ChunkLru.Valid, LinkedBetween, Lookup, SpecOf;
      writes := [];
      if height >= FLOOR_HEIGHT { SpecIsItsChunk(ChunkOf(height), anchors, floorHash); }
      var spec := if height >= FLOOR_HEIGHT then SpecOf(ChunkOf(height), anchors, floorHash) else None;
      if spec.None? { return Err(OutOfRange), []; }
      var hit := lru.Get(spec.value.k);
      if hit.Some? { return Ok(hit.value), []; }
      if stored.Some? {
        var good := VerifyLinkedRecords(stored.value, EndsOf(spec.value), hash);
        if good {
          lru.Set(spec.value.k, stored.value);
          return Ok(stored.value), [];
        }
        writes := [StoreWrite([], [spec.value.k], None, None)];
      }
      if fetched.None? { return Err(FetchFailed), writes; }
      var good := VerifyLinkedRecords(fetched.value, EndsOf(spec.value), hash);
      if !good { return Err(Unverified), writes; }
      writes := writes + [StoreWrite([Put(spec.value.k, fetched.value)], [], None, None)];
      lru.Set(spec.value.k, fetched.value);
      r := Ok(fetched.value);
    }
  }

  lemma SpecIsItsChunk(k: int, anchors: seq<Digest>, floorHash: Digest)
    ensures SpecOf(k, anchors, floorHash).Some? ==> SpecOf(k, anchors, floorHash).value.k == k <= FIRST_CHUNK + |anchors| - 1
  {
  }

  // Two verified chunks of one spec are the same records: whatever the store and the sources serve, and however often,
  // a height is always given the same chunk.
  lemma VerifiedChunkIsFixed(a: seq<Header>, b: seq<Header>, spec: ChunkSpec, hash: Header -> Digest)
    requires Injective(hash) && VerifiedChunk(a, spec, hash) && VerifiedChunk(b, spec, hash)
    ensures a == b
  {
    var ends := EndsOf(spec);
    LastHashFixesChain(a, b, if ends.prevHash.Some? then ends.prevHash.value else a[0].prev,
                       if ends.prevHash.Some? then ends.prevHash.value else b[0].prev, hash);
  }
}
