// Hash-linked header records: the link walk, the release-anchored chunks, reading one header out of a segment, and
// the walk of the stored suffix to the session pin.

module HeaderChain {
  import opened Base
  import opened Headers

  // The hash a segment ends on, `prev` when it is empty.
  function EndHash(rs: seq<Header>, prev: Digest, hash: Header -> Digest): Digest {
    if rs == [] then prev else hash(rs[|rs| - 1])
  }

  // Each record's prev is the hash of the record before it, the first one's is `prev`.
  ghost predicate Linked(rs: seq<Header>, prev: Digest, hash: Header -> Digest) {
    rs == [] || (Linked(rs[..|rs| - 1], prev, hash) && rs[|rs| - 1].prev == EndHash(rs[..|rs| - 1], prev, hash))
  }

  // The two baked ends of a segment, as verifyLinkedRecords takes them.
  datatype Ends = Ends(firstHeight: int, firstHash: Option<Digest>, prevHash: Option<Digest>,
                       lastHash: Digest, lastHeight: Option<int>)

  ghost predicate LinkedBetween(rs: seq<Header>, ends: Ends, hash: Header -> Digest) {
    && ends.firstHeight >= 0
    && rs != []
    && (ends.lastHeight.Some? ==> ends.lastHeight.value - ends.firstHeight + 1 == |rs|)
    && (ends.firstHash.Some? || ends.prevHash.Some?)
    && Linked(rs, if ends.prevHash.Some? then ends.prevHash.value else rs[0].prev, hash)
    && (ends.firstHash.Some? ==> hash(rs[0]) == ends.firstHash.value)
    && hash(rs[|rs| - 1]) == ends.lastHash
  }

  method VerifyLinkedRecords(rs: seq<Header>, ends: Ends, hash: Header -> Digest) returns (ok: bool)
    ensures ok <==> LinkedBetween(rs, ends, hash)
  {
    if ends.firstHeight < 0 || rs == [] { return false; }
    if ends.lastHeight.Some? && ends.lastHeight.value - ends.firstHeight + 1 != |rs| { return false; }
    if ends.firstHash.None? && ends.prevHash.None? { return false; }
    ghost var start := if ends.prevHash.Some? then ends.prevHash.value else rs[0].prev;
    var prev := ends.prevHash;
    for i := 0 to |rs|
      invariant prev == if i == 0 then ends.prevHash else Some(hash(rs[i - 1]))
      invariant Linked(rs[..i], start, hash)
      invariant i > 0 && ends.firstHash.Some? ==> hash(rs[0]) == ends.firstHash.value
    {
      assert rs[..i + 1][..i] == rs[..i];
      if prev.Some? && rs[i].prev != prev.value {
        assert !Linked(rs[..i + 1], start, hash);
        if Linked(rs, start, hash) { LinkedTake(rs, i + 1, start, hash); }
        return false;
      }
      prev := Some(hash(rs[i]));
      if i == 0 && ends.firstHash.Some? && prev.value != ends.firstHash.value { return false; }
    }
    assert rs[..|rs|] == rs;
    ok := prev.value == ends.lastHash;
  }

  // ---- Segments compose ----

  lemma {:induction false} LinkedConcat(a: seq<Header>, b: seq<Header>, prev: Digest, hash: Header -> Digest)
    ensures Linked(a + b, prev, hash) <==> Linked(a, prev, hash) && Linked(b, EndHash(a, prev, hash), hash)
    ensures EndHash(a + b, prev, hash) == EndHash(b, EndHash(a, prev, hash), hash)
  {
    if b == [] {
      assert a + b == a;
    } else {
      assert (a + b)[..|a + b| - 1] == a + b[..|b| - 1];
      LinkedConcat(a, b[..|b| - 1], prev, hash);
    }
  }

  lemma LinkedTake(rs: seq<Header>, n: nat, prev: Digest, hash: Header -> Digest)
    requires n <= |rs| && Linked(rs, prev, hash)
    ensures Linked(rs[..n], prev, hash) && Linked(rs[n..], EndHash(rs[..n], prev, hash), hash)
  {
    assert rs == rs[..n] + rs[n..];
    LinkedConcat(rs[..n], rs[n..], prev, hash);
  }

  lemma LinkedAt(rs: seq<Header>, i: nat, prev: Digest, hash: Header -> Digest)
    requires i < |rs| && Linked(rs, prev, hash)
    ensures rs[i].prev == if i == 0 then prev else hash(rs[i - 1])
  {
    LinkedTake(rs, i + 1, prev, hash);
    assert rs[..i + 1][..i] == rs[..i];
  }

  // The block hash is assumed to have no collisions.
  ghost predicate Injective(hash: Header -> Digest) { forall x, y :: hash(x) == hash(y) ==> x == y }

  // Two segments of one length linked to the same last hash are the same records: the hash fixes the whole past.
  lemma {:induction false} LastHashFixesChain(a: seq<Header>, b: seq<Header>, pa: Digest, pb: Digest, hash: Header -> Digest)
    requires Injective(hash)
    requires |a| == |b| > 0
    requires Linked(a, pa, hash) && Linked(b, pb, hash)
    requires hash(a[|a| - 1]) == hash(b[|b| - 1])
    ensures a == b && pa == pb
  {
    var n := |a| - 1;
    assert a[n] == b[n];
    assert a == a[..n] + [a[n]] && b == b[..n] + [b[n]];
    if n > 0 {
      LastHashFixesChain(a[..n], b[..n], pa, pb, hash);
    }
  }

  // ---- Anchored chunks ----

  datatype ChunkSpec = ChunkSpec(k: int, firstHeight: int, lastHeight: int,
                                 firstHash: Option<Digest>, prevHash: Option<Digest>, lastHash: Digest)

  // The spec of chunk k when the table anchors it. `floorHash` is SPV_FLOOR.hash.
  function SpecOf(k: int, anchors: seq<Digest>, floorHash: Digest): (r: Option<ChunkSpec>)
    ensures r.Some? <==> FIRST_CHUNK <= k < FIRST_CHUNK + |anchors|
  {
    var i := k - FIRST_CHUNK;
    if i < 0 || i >= |anchors| then None
    else
      var last := k * CHUNK + CHUNK - 1;
      if i == 0 then Some(ChunkSpec(k, FLOOR_HEIGHT, last, Some(floorHash), None, anchors[i]))
      else Some(ChunkSpec(k, k * CHUNK, last, None, Some(anchors[i - 1]), anchors[i]))
  }

  function EndsOf(spec: ChunkSpec): Ends {
    Ends(spec.firstHeight, spec.firstHash, spec.prevHash, spec.lastHash, Some(spec.lastHeight))
  }

  ghost predicate VerifiedChunk(rs: seq<Header>, spec: ChunkSpec, hash: Header -> Digest) {
    LinkedBetween(rs, EndsOf(spec), hash)
  }

  // The header of one record of a segment: the next record's prev, or the segment's last hash, is its hash.
  function ChunkHeader(rs: seq<Header>, firstHeight: int, lastHash: Digest, h: int): (Digest, Digest)
    requires firstHeight <= h < firstHeight + |rs|
  {
    var i := h - firstHeight;
    (if i + 1 < |rs| then rs[i + 1].prev else lastHash, rs[i].merkle)
  }

  lemma ChunkHeaderIsTheHeader(rs: seq<Header>, firstHeight: int, prev: Digest, lastHash: Digest, h: int, hash: Header -> Digest)
    requires firstHeight <= h < firstHeight + |rs|
    requires Linked(rs, prev, hash) && hash(rs[|rs| - 1]) == lastHash
    ensures ChunkHeader(rs, firstHeight, lastHash, h) == (hash(rs[h - firstHeight]), rs[h - firstHeight].merkle)
  {
    if h - firstHeight + 1 < |rs| { LinkedAt(rs, h - firstHeight + 1, prev, hash); }
  }

  // Every anchored chunk, end to end, from the floor to the top of chunk k.
  function AnchoredChain(chunks: map<int, seq<Header>>, k: int): seq<Header>
    requires k >= FIRST_CHUNK - 1
    requires forall j :: FIRST_CHUNK <= j <= k ==> j in chunks
    decreases k
  {
    if k < FIRST_CHUNK then [] else AnchoredChain(chunks, k - 1) + chunks[k]
  }

  // Chunks verified one by one, each against its own two baked hashes, form a single linked chain that starts at the
  // floor hash, ends at the newest anchor, and has one record for every height in between.
  lemma {:induction false} ChunksCompose(chunks: map<int, seq<Header>>, k: int, anchors: seq<Digest>, floorHash: Digest, hash: Header -> Digest)
    requires FIRST_CHUNK <= k < FIRST_CHUNK + |anchors|
    requires forall j :: FIRST_CHUNK <= j <= k ==> j in chunks && VerifiedChunk(chunks[j], SpecOf(j, anchors, floorHash).value, hash)
    ensures var all := AnchoredChain(chunks, k);
      && |all| == k * CHUNK + CHUNK - FLOOR_HEIGHT
      && Linked(all, all[0].prev, hash)
      && hash(all[0]) == floorHash
      && hash(all[|all| - 1]) == anchors[k - FIRST_CHUNK]
    decreases k
  {
    hide Linked;
    var c := chunks[k];
    assert VerifiedChunk(c, SpecOf(k, anchors, floorHash).value, hash);
    if k > FIRST_CHUNK {
      ChunksCompose(chunks, k - 1, anchors, floorHash, hash);
      ChunkExtends(AnchoredChain(chunks, k - 1), c, anchors[k - 1 - FIRST_CHUNK], hash);
    } else {
      assert AnchoredChain(chunks, k - 1) == [];
      assert AnchoredChain(chunks, k) == c;
    }
  }

  lemma ChunkExtends(before: seq<Header>, c: seq<Header>, mid: Digest, hash: Header -> Digest)
    requires before != [] && c != []
    requires Linked(before, before[0].prev, hash) && hash(before[|before| - 1]) == mid && Linked(c, mid, hash)
    ensures var all := before + c;
      Linked(all, all[0].prev, hash) && all[0] == before[0] && all[|all| - 1] == c[|c| - 1]
  {
    LinkedConcat(before, c, before[0].prev, hash);
  }

  // ---- The walk to the session pin ----

  // `work` is the chainwork at `tip`, counted from the light client's seed below the anchor at `newest`.
  datatype Pin = Pin(newest: int, tip: int, hash: Digest, work: int)

  // The record a scan for the latest timestamp keeps, and its time; (0, -1) before the first record.
  function Latest(rs: seq<Header>): (int, int) {
    if rs == [] then (0, -1)
    else
      var before, t := Latest(rs[..|rs| - 1]), rs[|rs| - 1].time;
      if t > before.1 then (|rs| - 1, t) else before
  }

  // It is the first record of maximal timestamp.
  lemma {:induction false} LatestIsFirstMaximum(rs: seq<Header>)
    requires rs != []
    ensures var (i, t) := Latest(rs);
      && 0 <= i < |rs| && rs[i].time == t
      && (forall j :: 0 <= j < |rs| ==> rs[j].time <= t)
      && (forall j :: 0 <= j < i ==> rs[j].time < t)
  {
    if |rs| > 1 { LatestIsFirstMaximum(rs[..|rs| - 1]); }
  }

  ghost predicate Walks(suffix: seq<Header>, newest: int, pin: Pin, checkpoints: map<int, Digest>, hash: Header -> Digest) {
    var n := pin.tip - newest;
    && pin.newest == newest && newest in checkpoints
    && 1 <= n <= |suffix|
    && (forall h :: h in checkpoints ==> !(newest < h <= pin.tip))
    && Linked(suffix[..n], checkpoints[newest], hash)
    && hash(suffix[n - 1]) == pin.hash
  }

  method WalkToPin(suffix: seq<Header>, newest: int, pin: Pin, checkpoints: map<int, Digest>, hash: Header -> Digest)
    returns (latest: Option<int>)
    requires newest >= -1
    ensures latest.Some? <==> Walks(suffix, newest, pin, checkpoints, hash)
    ensures latest.Some? ==>
      latest.value == newest + 1 + Latest(suffix[..pin.tip - newest]).0
  {
    var n := pin.tip - newest;
    if pin.newest != newest || newest !in checkpoints || n < 1 || |suffix| < n { return None; }
    if exists h :: h in checkpoints && newest < h <= pin.tip { return None; }
    var anchorHash := checkpoints[newest];
    assert Linked(suffix[..0], anchorHash, hash) && Latest(suffix[..0]) == (0, -1);
    hide Linked, Latest;
    var prev := anchorHash;
    var top, latestTime: int := newest + 1, -1;
    var i := 0;
    while i < n
      invariant 0 <= i <= n
      invariant Linked(suffix[..i], anchorHash, hash)
      invariant prev == EndHash(suffix[..i], anchorHash, hash)
      invariant i == n ==> prev == pin.hash
      invariant (top - newest - 1, latestTime) == Latest(suffix[..i])
    {
      var end := Min(n, i + CHUNK);
      var ok, lastHash := WalkSegment(suffix, i, end, n, newest, anchorHash, prev, pin.hash, hash);
      if !ok { return None; }
      top, latestTime := LaterOf(suffix, i, end, newest, top, latestTime);
      prev := lastHash;
      i := end;
    }
    latest := Some(top);
  }

  // One chunk-sized segment of the walk, checked against the next record's prev, the last one against the pin.
  method WalkSegment(suffix: seq<Header>, i: nat, end: nat, n: nat, newest: int, ghost anchorHash: Digest, prev: Digest, pinHash: Digest, hash: Header -> Digest)
    returns (ok: bool, lastHash: Digest)
    requires newest >= -1 && i < end <= n <= |suffix|
    requires Linked(suffix[..i], anchorHash, hash) && prev == EndHash(suffix[..i], anchorHash, hash)
    ensures ok ==> Linked(suffix[..end], anchorHash, hash) && lastHash == EndHash(suffix[..end], anchorHash, hash)
    ensures ok && end == n ==> lastHash == pinHash
    ensures !ok ==> !(Linked(suffix[..n], anchorHash, hash) && hash(suffix[n - 1]) == pinHash)
  {
    hide Linked;
    lastHash := if end == n then pinHash else suffix[end].prev;
    ok := VerifyLinkedRecords(suffix[i..end], Ends(newest + 1 + i, None, Some(prev), lastHash, None), hash);
    SegmentDecides(suffix, i, end, n, anchorHash, prev, lastHash, pinHash, hash);
  }

  // The latest record so far, carried over one more segment.
  method LaterOf(suffix: seq<Header>, i: nat, end: nat, newest: int, top: int, latestTime: int) returns (top': int, latestTime': int)
    requires i <= end <= |suffix| && (top - newest - 1, latestTime) == Latest(suffix[..i])
    ensures (top' - newest - 1, latestTime') == Latest(suffix[..end])
  {
    top', latestTime' := top, latestTime;
    for j := i to end
      invariant (top' - newest - 1, latestTime') == Latest(suffix[..j])
    {
      assert suffix[..j + 1][..j] == suffix[..j];
      if suffix[j].time > latestTime' {
        latestTime' := suffix[j].time;
        top' := newest + 1 + j;
      }
    }
  }

  // One chunk-sized segment of the walk: it verifies exactly when the walk so far extends to its end, and a segment
  // that fails cannot be part of a linked walk to the pin.
  lemma SegmentDecides(suffix: seq<Header>, i: nat, end: nat, n: nat, anchorHash: Digest, prev: Digest, lastHash: Digest, pinHash: Digest, hash: Header -> Digest)
    requires i < end <= n <= |suffix|
    requires Linked(suffix[..i], anchorHash, hash)
    requires prev == EndHash(suffix[..i], anchorHash, hash)
    requires lastHash == if end == n then pinHash else suffix[end].prev
    ensures Linked(suffix[..end], anchorHash, hash) <==> Linked(suffix[i..end], prev, hash)
    ensures Linked(suffix[..n], anchorHash, hash) && hash(suffix[n - 1]) == pinHash ==>
      Linked(suffix[i..end], prev, hash) && hash(suffix[end - 1]) == lastHash
  {
    assert suffix[..end] == suffix[..i] + suffix[i..end];
    LinkedConcat(suffix[..i], suffix[i..end], anchorHash, hash);
    if Linked(suffix[..n], anchorHash, hash) {
      assert suffix[..n][..end] == suffix[..end];
      LinkedTake(suffix[..n], end, anchorHash, hash);
      if end < n { LinkedAt(suffix[..n], end, anchorHash, hash); }
    }
  }
}
