// The stored suffix over a whole session: the light client advances or is reseeded, persists queue suffix writes, a
// single detached writer lands them (or fails), and the chunk acquirer writes anchored chunks on its own chain.

module SuffixStore {
  import opened Base
  import opened Headers
  import opened HeaderStore

  // ---- The chain above the newest anchored chunk, cut into chunks ----

  function TopChunk(K: int, n: nat): int { K + (n + CHUNK - 1) / CHUNK }

  function Slice(chain: seq<Header>, K: int, k: int): seq<Header>
    requires K < k <= TopChunk(K, |chain|)
  {
    chain[(k - K - 1) * CHUNK..Min((k - K) * CHUNK, |chain|)]
  }

  // What a store holding exactly `chain` above chunk K contains.
  function Slices(chain: seq<Header>, K: int): Chunks {
    map k | K < k <= TopChunk(K, |chain|) :: Slice(chain, K, k)
  }

  function Above(s: Chunks, K: int): Chunks { map k | k in s && k > K :: s[k] }

  function Below(s: Chunks, K: int): Chunks { map k | k in s && k <= K :: s[k] }

  function PutsFrom(chain: seq<Header>, K: int, lo: int): (ps: seq<Put>)
    requires K < lo
    decreases TopChunk(K, |chain|) - lo
  {
    if lo > TopChunk(K, |chain|) then [] else [Put(lo, Slice(chain, K, lo))] + PutsFrom(chain, K, lo + 1)
  }

  // First chunk a persist rewrites: the one holding the height after the persisted ones.
  function LowChunk(K: int, persisted: nat): int { K + 1 + persisted / CHUNK }

  function SuffixWriteOf(chain: seq<Header>, K: int, persisted: nat, hash: Header -> Digest): StoreWrite
    requires chain != []
  {
    StoreWrite(PutsFrom(chain, K, LowChunk(K, persisted)), [], Some(TopChunk(K, |chain|)),
               Some(Head(K * CHUNK + CHUNK - 1 + |chain|, hash(chain[|chain| - 1]))))
  }

  lemma {:induction false} PutsFromMap(chain: seq<Header>, K: int, lo: int)
    requires K < lo
    ensures PutMap(PutsFrom(chain, K, lo)) == map k | lo <= k <= TopChunk(K, |chain|) :: Slice(chain, K, k)
    decreases TopChunk(K, |chain|) - lo
  {
    if lo <= TopChunk(K, |chain|) {
      PutsFromMap(chain, K, lo + 1);
      PutMapConcat([Put(lo, Slice(chain, K, lo))], PutsFrom(chain, K, lo + 1));
      assert [Put(lo, Slice(chain, K, lo))][..0] == [];
    }
  }

  // ---- Reading the suffix back ----

  function KeysFrom(s: Chunks, k: int): set<int> { set j | j in s && j >= k }

  lemma KeysFromShrinks(s: Chunks, k: int)
    requires k in s
    ensures KeysFrom(s, k + 1) < KeysFrom(s, k)
  {
    assert k in KeysFrom(s, k) && k !in KeysFrom(s, k + 1);
  }

  // What a restore reads from chunk k on: consecutive chunks until one is missing, malformed or short.
  ghost function Readable(s: Chunks, k: int): seq<Header>
    decreases KeysFrom(s, k)
  {
    if k !in s || s[k] == [] || |s[k]| > CHUNK then []
    else if |s[k]| < CHUNK then s[k]
    else
      KeysFromShrinks(s, k);
      s[k] + Readable(s, k + 1)
  }

  method ReadSuffix(s: Chunks, K: int) returns (suffix: seq<Header>)
    ensures suffix == Readable(s, K + 1)
  {
    suffix := [];
    var k := K + 1;
    while k in s
      invariant suffix + Readable(s, k) == Readable(s, K + 1)
      decreases KeysFrom(s, k)
    {
      var r := s[k];
      if r == [] || |r| > CHUNK { break; }
      suffix := suffix + r;
      if |r| < CHUNK { return; }
      KeysFromShrinks(s, k);
      k := k + 1;
    }
  }

  lemma {:induction false} ReadableFrom(s: Chunks, chain: seq<Header>, K: int, k: int)
    requires Above(s, K) == Slices(chain, K)
    requires K < k && (k - K - 1) * CHUNK <= |chain|
    ensures Readable(s, k) == chain[(k - K - 1) * CHUNK..]
    decreases TopChunk(K, |chain|) - k
  {
    assert k in Above(s, K) <==> k in s;
    if k <= TopChunk(K, |chain|) {
      assert Above(s, K)[k] == Slice(chain, K, k);
      if |s[k]| == CHUNK {
        ReadableFrom(s, chain, K, k + 1);
      }
    }
  }

  // Store then restore gives the chain back.
  lemma RestoreReadsChain(s: Chunks, chain: seq<Header>, K: int)
    requires Above(s, K) == Slices(chain, K)
    ensures Readable(s, K + 1) == chain
  {
    ReadableFrom(s, chain, K, K + 1);
  }

  // Whole chunks of what was read are where the read found them.
  lemma {:induction false} ReadableChunks(s: Chunks, k: int, j: nat)
    requires (j + 1) * CHUNK <= |Readable(s, k)|
    ensures k + j in s && s[k + j] == Readable(s, k)[j * CHUNK..(j + 1) * CHUNK]
    decreases j
  {
    if j > 0 {
      ReadableChunks(s, k + 1, j - 1);
      assert Readable(s, k)[CHUNK..] == Readable(s, k + 1);
      assert Readable(s, k)[CHUNK..][(j - 1) * CHUNK..j * CHUNK] == Readable(s, k)[j * CHUNK..(j + 1) * CHUNK];
    }
  }

  // A client restored on a prefix of whatever the store holds agrees with the store up to the smaller tip.
  lemma RestoreAgrees(s: Chunks, chain: seq<Header>, K: int, persisted: nat)
    requires persisted <= |chain| && persisted <= |Readable(s, K + 1)|
    requires chain[..persisted] == Readable(s, K + 1)[..persisted]
    ensures FullChunksAgree(s, chain, K, persisted)
  {
    forall k | K < k < LowChunk(K, persisted) ensures k in s && s[k] == Slice(chain, K, k) {
      var j := k - K - 1;
      assert (j + 1) * CHUNK <= persisted;
      ReadableChunks(s, K + 1, j);
      SameSlice(chain, Readable(s, K + 1), persisted, j * CHUNK, (j + 1) * CHUNK);
    }
  }

  // ---- The detached writer ----

  // One chained writer per store: a write that arrives while another is pending is merged into it.
  class StoreWriter {
    const store: Store
    var busy: bool
    var pending: Option<StoreWrite>
    var inflight: Option<StoreWrite>

    constructor (s: Store)
      ensures store == s && !busy && pending == None && inflight == None
    {
      store := s;
      busy, pending, inflight := false, None, None;
    }

    // `busy` is the writer loop being scheduled or running; it never stops with a write pending.
    ghost predicate Valid()
      reads this
    {
      (pending.Some? || inflight.Some? ==> busy)
    }

    // Queues `w`. A merge that throws leaves the queue as it was.
    method Detach(w: StoreWrite) returns (ok: bool)
      requires Valid()
      modifies this
      ensures Valid() && inflight == old(inflight)
      ensures ok == (old(pending).None? || MergeStoreWrites(old(pending).value, w).Ok?)
      ensures pending == if ok then Some(Queued(old(pending), w)) else old(pending)
      ensures ok ==> busy
    {
      if pending.Some? {
        match MergeStoreWrites(pending.value, w)
        case Err(_) => return false;
        case Ok(m) => pending := Some(m);
      } else {
        pending := Some(w);
      }
      busy := true;
      ok := true;
    }

    // One turn of the loop guard: start the pending write, or stop.
    method Take()
      requires Valid() && busy && inflight.None?
      modifies this
      ensures Valid()
      ensures inflight == old(pending) && pending == None
      ensures busy == old(pending).Some?
    {
      if pending.Some? {
        inflight, pending := pending, None;
      } else {
        busy := false;
      }
    }

    // The started write settles. A failure is warned and dropped.
    method Land(commits: bool)
      requires Valid() && inflight.Some?
      modifies this, store
      ensures Valid() && busy && inflight == None && pending == old(pending)
      ensures store.chunks == if commits && Accepted(old(inflight).value)
                              then Apply(old(store.chunks), old(inflight).value) else old(store.chunks)
      ensures store.head == if commits && Accepted(old(inflight).value)
                            then ApplyHead(old(store.head), old(inflight).value) else old(store.head)
    {
      var _ := store.Write(inflight.value, commits);
      inflight := None;
    }
  }

  function Queued(pending: Option<StoreWrite>, w: StoreWrite): StoreWrite
    requires pending.Some? ==> MergeStoreWrites(pending.value, w).Ok?
  {
    if pending.Some? then MergeStoreWrites(pending.value, w).value else w
  }

  // ---- A session as a run of events ----

  datatype Disk = Disk(chunks: Chunks, head: Option<Head>)

  // `persisted` counts the headers of `chain` the last persist handed over. `synced`: a persist was issued since the
  // client was last (re)seeded. `wrongFrom`: the first chunk that may be wrong, since a write of it failed and nothing
  // queued since rewrites from there or below.
  datatype Session = Session(K: int, disk: Disk, chain: seq<Header>, persisted: nat,
                             inflight: Option<StoreWrite>, pending: Option<StoreWrite>, synced: bool, wrongFrom: Option<int>)

  datatype Event =
    | Extend(more: seq<Header>)      // LightClient.sync
    | Reseed(anew: seq<Header>)     // LC = fresh; persistedTip = newest
    | Persist
    | Take
    | Land(commits: bool)
    | Anchored(w: StoreWrite)        // one of the acquirer's chunk writes, landed

  // The acquirer puts or deletes one anchored chunk; nothing else.
  predicate AnchoredWrite(w: StoreWrite, K: int) {
    w.deleteAbove.None? && w.head.None? && (forall p :: p in w.put ==> p.k <= K) && (forall k :: k in w.del ==> k <= K)
  }

  function ApplyDisk(d: Disk, w: StoreWrite): Disk { Disk(Apply(d.chunks, w), ApplyHead(d.head, w)) }

  function ApplyOpt(d: Disk, w: Option<StoreWrite>): Disk { if w.Some? then ApplyDisk(d, w.value) else d }

  // The disk once everything queued has landed.
  function Effective(s: Session): Disk { ApplyOpt(ApplyOpt(s.disk, s.inflight), s.pending) }

  // A suffix write that rewrites exactly chunks lo to its truncation point.
  ghost predicate JobFrom(K: int, w: StoreWrite, lo: int) {
    && w.del == [] && w.deleteAbove.Some? && w.head.Some? && K < lo <= w.deleteAbove.value
    && forall k :: k in PutMap(w.put) <==> lo <= k <= w.deleteAbove.value
  }

  ghost predicate Job(K: int, w: StoreWrite) { exists lo :: JobFrom(K, w, lo) }

  // The lowest chunk a suffix write puts.
  ghost function LowOf(K: int, w: StoreWrite): int { if Job(K, w) then JobLow(K, w) else K + 1 }

  ghost function JobLow(K: int, w: StoreWrite): int
    requires Job(K, w)
  {
    var lo :| JobFrom(K, w, lo);
    lo
  }

  lemma LowIs(K: int, w: StoreWrite, lo: int)
    requires JobFrom(K, w, lo)
    ensures LowOf(K, w) == lo
  {
    var other := JobLow(K, w);
    assert lo in PutMap(w.put) && other in PutMap(w.put);
  }

  // After the write in flight is lost: wrong from its lowest chunk on, unless what is queued rewrites from there or below.
  ghost function AfterLoss(s: Session): Option<int>
    requires s.inflight.Some?
  {
    var low := LowOf(s.K, s.inflight.value);
    var first := if s.wrongFrom.Some? then Min(s.wrongFrom.value, low) else low;
    if s.pending.Some? && LowOf(s.K, s.pending.value) <= first then None else Some(first)
  }

  // After a persist from chunk `low` on.
  function AfterPersist(wrongFrom: Option<int>, low: int): Option<int> { if wrongFrom.Some? && low <= wrongFrom.value then None else wrongFrom }

  ghost function Step(s: Session, e: Event, hash: Header -> Digest): Session {
    match e
    case Extend(more) => s.(chain := s.chain + more)
    case Reseed(anew) => s.(chain := anew, persisted := 0, synced := false)
    case Persist =>
      if |s.chain| <= s.persisted then s
      else
        var w := SuffixWriteOf(s.chain, s.K, s.persisted, hash);
        if s.pending.Some? && MergeStoreWrites(s.pending.value, w).Err? then s
        else s.(pending := Some(Queued(s.pending, w)), persisted := |s.chain|, synced := true,
                wrongFrom := AfterPersist(s.wrongFrom, LowChunk(s.K, s.persisted)))
    case Take => if s.inflight.None? then s.(inflight := s.pending, pending := None) else s
    case Land(commits) =>
      if s.inflight.None? then s
      else if commits && Accepted(s.inflight.value) then s.(disk := ApplyDisk(s.disk, s.inflight.value), inflight := None)
      else s.(inflight := None, wrongFrom := AfterLoss(s))
    case Anchored(w) => if AnchoredWrite(w, s.K) then s.(disk := ApplyDisk(s.disk, w)) else s
  }

  ghost function Run(s: Session, es: seq<Event>, hash: Header -> Digest): Session {
    if es == [] then s else Step(Run(s, es[..|es| - 1], hash), es[|es| - 1], hash)
  }

  // Whole chunks of the persisted prefix are where the chain says.
  ghost predicate FullChunksAgree(c: Chunks, chain: seq<Header>, K: int, persisted: nat)
    requires persisted <= |chain|
  {
    forall k :: K < k < LowChunk(K, persisted) ==> k in c && c[k] == Slice(chain, K, k)
  }

  // Those of them below a bound.
  ghost predicate AgreesBelow(c: Chunks, chain: seq<Header>, K: int, persisted: nat, bound: Option<int>)
    requires persisted <= |chain|
  {
    forall k :: K < k < LowChunk(K, persisted) && (bound.Some? ==> k < bound.value) ==> k in c && c[k] == Slice(chain, K, k)
  }

  ghost predicate Exact(d: Disk, chain: seq<Header>, K: int, hash: Header -> Digest) {
    && chain != []
    && Above(d.chunks, K) == Slices(chain, K)
    && d.head == Some(Head(K * CHUNK + CHUNK - 1 + |chain|, hash(chain[|chain| - 1])))
  }

  ghost predicate Inv(s: Session, hash: Header -> Digest) {
    && s.persisted <= |s.chain|
    && (s.inflight.Some? ==> Job(s.K, s.inflight.value))
    && (s.pending.Some? ==> Job(s.K, s.pending.value) && LowChunk(s.K, s.persisted) <= s.pending.value.deleteAbove.value + 1)
    && (s.pending.Some? && s.wrongFrom.Some? ==> LowOf(s.K, s.pending.value) > s.wrongFrom.value)
    && AgreesBelow(Effective(s).chunks, s.chain, s.K, s.persisted, s.wrongFrom)
    && (s.wrongFrom.None? && s.synced ==> Exact(Effective(s), s.chain[..s.persisted], s.K, hash))
  }

  // A suffix write never touches the anchored chunks, and depends on nothing there.
  lemma JobSplits(c: Chunks, w: StoreWrite, K: int)
    requires Job(K, w)
    ensures Below(Apply(c, w), K) == Below(c, K)
    ensures Above(Apply(c, w), K) == Apply(Above(c, K), w)
  {
  }

  lemma AnchoredSplits(c: Chunks, w: StoreWrite, K: int)
    requires AnchoredWrite(w, K)
    ensures Above(Apply(c, w), K) == Above(c, K)
    ensures Below(Apply(c, w), K) == Apply(Below(c, K), w)
  {
    forall k | k in PutMap(w.put) ensures k <= K { PutMapKeys(w.put, k); }
  }

  // Suffix writes and the acquirer's writes may land in either order.
  lemma AnchoredCommutes(c: Chunks, w: StoreWrite, a: StoreWrite, K: int)
    requires Job(K, w) && AnchoredWrite(a, K)
    ensures Apply(Apply(c, w), a) == Apply(Apply(c, a), w)
  {
    forall k | k in PutMap(a.put) ensures k <= K { PutMapKeys(a.put, k); }
    var lo :| JobFrom(K, w, lo);
    var one, two := Apply(Apply(c, w), a), Apply(Apply(c, a), w);
    forall k ensures (k in one <==> k in two) && (k in one ==> one[k] == two[k]) {
      ApplyAt(c, w, k);
      ApplyAt(c, a, k);
      ApplyAt(Apply(c, w), a, k);
      ApplyAt(Apply(c, a), w, k);
    }
  }

  lemma SuffixWriteIsJob(chain: seq<Header>, K: int, persisted: nat, hash: Header -> Digest)
    requires persisted < |chain|
    ensures JobFrom(K, SuffixWriteOf(chain, K, persisted, hash), LowChunk(K, persisted))
  {
    PutsFromMap(chain, K, LowChunk(K, persisted));
  }

  lemma PersistAt(c: Chunks, chain: seq<Header>, K: int, persisted: nat, hash: Header -> Digest, k: int)
    requires persisted < |chain| && FullChunksAgree(c, chain, K, persisted) && K < k
    ensures var a := Apply(c, SuffixWriteOf(chain, K, persisted, hash));
      (k in a <==> k <= TopChunk(K, |chain|)) && (k in a ==> a[k] == Slice(chain, K, k))
  {
    PutsFromMap(chain, K, LowChunk(K, persisted));
    ApplyAt(c, SuffixWriteOf(chain, K, persisted, hash), k);
  }

  // The store takes a session's write when the table has room for its chunks and the hash of its tip is written in full.
  lemma SuffixWriteAccepted(chain: seq<Header>, K: int, persisted: nat, hash: Header -> Digest)
    requires persisted < |chain| && FIRST_CHUNK <= K && TopChunk(K, |chain|) <= MAX_CHUNK
    requires var h := hash(chain[|chain| - 1]);
      |h| == 66 && h[0] == '0' && h[1] == 'x' && forall i :: 2 <= i < 66 ==> '0' <= h[i] <= '9' || 'a' <= h[i] <= 'f'
    ensures Accepted(SuffixWriteOf(chain, K, persisted, hash))
  {
    var w := SuffixWriteOf(chain, K, persisted, hash);
    var h := hash(chain[|chain| - 1]);
    PutsFromMap(chain, K, LowChunk(K, persisted));
    forall p | p in w.put ensures KeyInRange(p.k) { InPutMap(w.put, p); }
    assert h[..2] == "0x";
    forall c | c in h[2..] ensures '0' <= c <= '9' || 'a' <= c <= 'f' {
      var i :| 0 <= i < 64 && h[2..][i] == c;
      assert h[i + 2] == c;
    }
  }

  lemma {:induction false} InPutMap(ps: seq<Put>, p: Put)
    requires p in ps
    ensures p.k in PutMap(ps)
  {
    if p != ps[|ps| - 1] { InPutMap(ps[..|ps| - 1], p); }
  }

  // A persist over a disk that agrees on the whole chunks below it leaves exactly the chain.
  lemma PersistIsExact(d: Disk, chain: seq<Header>, K: int, persisted: nat, hash: Header -> Digest)
    requires persisted < |chain| && FullChunksAgree(d.chunks, chain, K, persisted)
    ensures Exact(ApplyDisk(d, SuffixWriteOf(chain, K, persisted, hash)), chain, K, hash)
  {
    forall k | K < k { PersistAt(d.chunks, chain, K, persisted, hash, k); }
  }

  lemma ExactAgrees(d: Disk, chain: seq<Header>, K: int, hash: Header -> Digest)
    requires Exact(d, chain, K, hash)
    ensures FullChunksAgree(d.chunks, chain, K, |chain|)
  {
    forall k | K < k < LowChunk(K, |chain|) ensures k in d.chunks && d.chunks[k] == Slice(chain, K, k) {
      assert k <= TopChunk(K, |chain|);
      assert k in Slices(chain, K);
      assert k in Above(d.chunks, K);
    }
  }

  lemma PrefixAgrees(c: Chunks, chain: seq<Header>, longer: seq<Header>, K: int, persisted: nat, bound: Option<int>)
    requires persisted <= |chain| <= |longer| && longer[..|chain|] == chain
    ensures AgreesBelow(c, chain, K, persisted, bound) <==> AgreesBelow(c, longer, K, persisted, bound)
  {
    forall k | K < k < LowChunk(K, persisted) ensures Slice(chain, K, k) == Slice(longer, K, k) {
      assert (k - K) * CHUNK <= |chain|;
      SameSlice(chain, longer, |chain|, (k - K - 1) * CHUNK, (k - K) * CHUNK);
    }
  }

  // Coalescing a suffix write into one already pending gives one write of the same kind, with the effect of both.
  lemma MergeJobs(d: Disk, o: StoreWrite, w: StoreWrite, K: int, lo: int)
    requires Job(K, o) && JobFrom(K, w, lo) && lo <= o.deleteAbove.value + 1
    ensures MergeStoreWrites(o, w).Ok?
    ensures var q := MergeStoreWrites(o, w).value;
      && Job(K, q) && q.deleteAbove == w.deleteAbove
      && LowOf(K, q) == Min(lo, LowOf(K, o))
      && ApplyDisk(d, q) == ApplyDisk(ApplyDisk(d, o), w)
  {
    var lo' :| JobFrom(K, o, lo');
    MergeShape(o, w);
    assert JobFrom(K, MergeStoreWrites(o, w).value, Min(lo, lo'));
    LowIs(K, MergeStoreWrites(o, w).value, Min(lo, lo'));
    LowIs(K, o, lo');
    MergeIsSequential(d.chunks, d.head, o, w);
  }

  lemma QueueIsApply(s: Session, w: StoreWrite, lo: int, hash: Header -> Digest)
    requires Inv(s, hash) && JobFrom(s.K, w, lo) && lo <= LowChunk(s.K, s.persisted)
    ensures s.pending.Some? ==> MergeStoreWrites(s.pending.value, w).Ok?
    ensures var q := Queued(s.pending, w);
      && Job(s.K, q) && q.deleteAbove == w.deleteAbove
      && LowOf(s.K, q) == (if s.pending.Some? then Min(lo, LowOf(s.K, s.pending.value)) else lo)
      && ApplyOpt(ApplyOpt(s.disk, s.inflight), Some(q)) == ApplyDisk(Effective(s), w)
  {
    if s.pending.Some? {
      MergeJobs(ApplyOpt(s.disk, s.inflight), s.pending.value, w, s.K, lo);
    } else {
      LowIs(s.K, w, lo);
    }
  }

  lemma PersistKeepsInv(s: Session, hash: Header -> Digest)
    requires Inv(s, hash)
    ensures Inv(Step(s, Persist, hash), hash)
  {
    if s.persisted < |s.chain| {
      var w, lo := SuffixWriteOf(s.chain, s.K, s.persisted, hash), LowChunk(s.K, s.persisted);
      SuffixWriteIsJob(s.chain, s.K, s.persisted, hash);
      QueueIsApply(s, w, lo, hash);
      var t := Step(s, Persist, hash);
      assert t.chain[..t.persisted] == s.chain;
      assert Effective(t) == ApplyDisk(Effective(s), w);
      if t.wrongFrom.None? {
        assert FullChunksAgree(Effective(s).chunks, s.chain, s.K, s.persisted);
        PersistIsExact(Effective(s), s.chain, s.K, s.persisted, hash);
        ExactAgrees(Effective(t), s.chain, s.K, hash);
      } else {
        forall k | s.K < k < t.wrongFrom.value ensures k in Effective(t).chunks && Effective(t).chunks[k] == Slice(s.chain, s.K, k) {
          ApplyAt(Effective(s).chunks, w, k);
        }
      }
    }
  }

  // What lies below a write's lowest chunk is as it was without it; a later write from there or below decides the rest.
  lemma LostWrite(c: Chunks, w: StoreWrite, K: int, k: int)
    requires Job(K, w) && k < LowOf(K, w)
    ensures k in Apply(c, w) <==> k in c
    ensures k in c ==> Apply(c, w)[k] == c[k]
  {
    var lo :| JobFrom(K, w, lo);
    LowIs(K, w, lo);
    ApplyAt(c, w, k);
  }

  lemma LaterDecides(c: Chunks, w: StoreWrite, p: StoreWrite, K: int, k: int)
    requires Job(K, w) && Job(K, p) && K < k && (k < LowOf(K, w) || LowOf(K, p) <= LowOf(K, w))
    ensures var one, two := Apply(Apply(c, w), p), Apply(c, p);
      (k in one <==> k in two) && (k in one ==> one[k] == two[k])
  {
    var lo :| JobFrom(K, p, lo);
    LowIs(K, p, lo);
    ApplyAt(Apply(c, w), p, k);
    ApplyAt(c, p, k);
    if k < LowOf(K, w) { LostWrite(c, w, K, k); }
  }

  lemma SameAboveAgrees(c: Chunks, c': Chunks, chain: seq<Header>, K: int, persisted: nat, bound: Option<int>)
    requires persisted <= |chain| && Above(c, K) == Above(c', K)
    ensures AgreesBelow(c, chain, K, persisted, bound) ==> AgreesBelow(c', chain, K, persisted, bound)
  {
    if AgreesBelow(c, chain, K, persisted, bound) {
      forall k | K < k < LowChunk(K, persisted) && (bound.Some? ==> k < bound.value) ensures k in c' && c'[k] == Slice(chain, K, k) {
        assert k in Above(c, K) && k in Above(c', K);
      }
    }
  }

  lemma ExtendKeepsInv(s: Session, more: seq<Header>, hash: Header -> Digest)
    requires Inv(s, hash)
    ensures Inv(Step(s, Extend(more), hash), hash)
  {
    var chain := s.chain + more;
    assert chain[..|s.chain|] == s.chain;
    assert chain[..s.persisted] == s.chain[..s.persisted];
    PrefixAgrees(Effective(s).chunks, s.chain, chain, s.K, s.persisted, s.wrongFrom);
  }

  lemma FailureKeepsInv(s: Session, hash: Header -> Digest)
    requires Inv(s, hash) && s.inflight.Some?
    ensures Inv(s.(inflight := None, wrongFrom := AfterLoss(s)), hash)
  {
    var t, w := s.(inflight := None, wrongFrom := AfterLoss(s)), s.inflight.value;
    var before, after := Effective(s), Effective(t);
    if s.pending.Some? {
      forall k | s.K < k && (k < LowOf(s.K, w) || LowOf(s.K, s.pending.value) <= LowOf(s.K, w))
        ensures (k in before.chunks <==> k in after.chunks) && (k in before.chunks ==> before.chunks[k] == after.chunks[k])
      {
        LaterDecides(s.disk.chunks, w, s.pending.value, s.K, k);
      }
    } else {
      forall k | s.K < k < LowOf(s.K, w)
        ensures (k in before.chunks <==> k in after.chunks) && (k in before.chunks ==> before.chunks[k] == after.chunks[k])
      {
        LostWrite(s.disk.chunks, w, s.K, k);
      }
    }
    if t.wrongFrom.None? { assert Above(before.chunks, s.K) == Above(after.chunks, s.K); }
  }

  // An anchored write landing now is the same as landing after everything queued.
  lemma AnchoredLast(s: Session, w: StoreWrite, hash: Header -> Digest)
    requires Inv(s, hash) && AnchoredWrite(w, s.K)
    ensures Effective(s.(disk := ApplyDisk(s.disk, w))) == ApplyDisk(Effective(s), w)
  {
    var one := ApplyOpt(s.disk, s.inflight);
    if s.inflight.Some? { AnchoredCommutes(s.disk.chunks, s.inflight.value, w, s.K); }
    assert ApplyOpt(ApplyDisk(s.disk, w), s.inflight) == ApplyDisk(one, w);
    if s.pending.Some? { AnchoredCommutes(one.chunks, s.pending.value, w, s.K); }
  }

  lemma AnchoredKeepsInv(s: Session, w: StoreWrite, hash: Header -> Digest)
    requires Inv(s, hash) && AnchoredWrite(w, s.K)
    ensures Inv(s.(disk := ApplyDisk(s.disk, w)), hash)
  {
    var t := s.(disk := ApplyDisk(s.disk, w));
    AnchoredLast(s, w, hash);
    AnchoredSplits(Effective(s).chunks, w, s.K);
    SameAboveAgrees(Effective(s).chunks, Effective(t).chunks, s.chain, s.K, s.persisted, s.wrongFrom);
  }

  lemma StepKeepsInv(s: Session, e: Event, hash: Header -> Digest)
    requires Inv(s, hash)
    ensures Inv(Step(s, e, hash), hash)
  {
    match e
    case Extend(more) => ExtendKeepsInv(s, more, hash);
    case Reseed(anew) =>
      if s.pending.Some? { var lo :| JobFrom(s.K, s.pending.value, lo); }
    case Persist => PersistKeepsInv(s, hash);
    case Take =>
    case Land(commits) =>
      if s.inflight.Some? && !(commits && Accepted(s.inflight.value)) { FailureKeepsInv(s, hash); }
    case Anchored(w) => if AnchoredWrite(w, s.K) { AnchoredKeepsInv(s, w, hash); }
  }

  // A restored session: nothing queued, and the stored chunks agree with the client up to the persisted tip.
  ghost predicate Restored(s: Session) {
    && s.persisted <= |s.chain| && s.inflight.None? && s.pending.None? && !s.synced && s.wrongFrom.None?
    && FullChunksAgree(s.disk.chunks, s.chain, s.K, s.persisted)
  }

  lemma {:induction false} RunKeepsInv(s: Session, es: seq<Event>, hash: Header -> Digest)
    requires Restored(s)
    ensures Inv(Run(s, es, hash), hash)
    ensures Run(s, es, hash).K == s.K
  {
    if es != [] {
      RunKeepsInv(s, es[..|es| - 1], hash);
      StepKeepsInv(Run(s, es[..|es| - 1], hash), es[|es| - 1], hash);
    }
  }

  // Over any run of advances, reseeds, persists, writer turns, failures and anchored writes: once the queue is empty
  // and every failed write's chunks have been rewritten since, the store above the newest anchored chunk is exactly what the last
  // persist handed over, nothing is stored above it, and a restore reads that chain back.
  lemma SettledStoreIsChain(s: Session, es: seq<Event>, hash: Header -> Digest)
    requires Restored(s)
    ensures var t := Run(s, es, hash);
      t.persisted <= |t.chain| &&
      (t.synced && t.wrongFrom.None? && t.inflight.None? && t.pending.None? ==>
        && Exact(t.disk, t.chain[..t.persisted], t.K, hash)
        && Readable(t.disk.chunks, t.K + 1) == t.chain[..t.persisted])
  {
    RunKeepsInv(s, es, hash);
    var t := Run(s, es, hash);
    if t.synced && t.wrongFrom.None? && t.inflight.None? && t.pending.None? {
      RestoreReadsChain(t.disk.chunks, t.chain[..t.persisted], t.K);
    }
  }

  lemma StepSparesAnchored(s: Session, e: Event, hash: Header -> Digest)
    requires Inv(s, hash) && !e.Anchored?
    ensures Below(Step(s, e, hash).disk.chunks, s.K) == Below(s.disk.chunks, s.K)
  {
    if e.Land? && s.inflight.Some? { JobSplits(s.disk.chunks, s.inflight.value, s.K); }
  }

  // No run touches an anchored chunk except through the acquirer.
  lemma {:induction false} AnchoredChunksAreTheAcquirers(s: Session, es: seq<Event>, hash: Header -> Digest)
    requires Restored(s)
    requires forall e :: e in es ==> !e.Anchored?
    ensures Below(Run(s, es, hash).disk.chunks, s.K) == Below(s.disk.chunks, s.K)
  {
    if es != [] {
      AnchoredChunksAreTheAcquirers(s, es[..|es| - 1], hash);
      RunKeepsInv(s, es[..|es| - 1], hash);
      StepSparesAnchored(Run(s, es[..|es| - 1], hash), es[|es| - 1], hash);
    }
  }
}
