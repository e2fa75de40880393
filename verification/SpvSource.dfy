// The live header source of one browser session: the light client above the newest anchor, the walked records below
// a pin-seeded client, the session pin and its work, the lapse floor, and what reaches the header store.

module SpvSources {
  import opened Base
  import opened Headers
  import opened HeaderStore
  import opened SuffixStore
  import opened HeaderChain
  import opened LightClients

  const PAGE: int := 512
  const SYNC_PERSIST_WINDOW: int := 8192
  const FLOOR_SLACK: int := 12     // CONF_BUFFER

  function NewestOf(K: int): int { K * CHUNK + CHUNK - 1 }

  // ---- Extending an accepted chain ----

  lemma {:induction false} IngestPrefix(r: Rules, limit: int, base: int, held: seq<Header>, feed: seq<Header>, n: nat)
    requires held != [] && n <= |feed|
    requires Ingest(r, limit, base, held, feed).0 == held + feed[..n]
    ensures Ingest(r, limit, base, held, feed[..n]) == (held + feed[..n], None)
    decreases |feed|
  {
    if n == 0 {
      assert held + feed[..0] == held;
    } else {
      assert |held + feed[..n]| > |held|;
      assert held + feed[..n] == held + [feed[0]] + feed[1..][..n - 1];
      IngestPrefix(r, limit, base, held + [feed[0]], feed[1..], n - 1);
      assert feed[..n][1..] == feed[1..][..n - 1];
    }
  }

  lemma IngestAllOf(r: Rules, limit: int, base: int, held: seq<Header>, feed: seq<Header>)
    requires held != [] && Ingest(r, limit, base, held, feed).1.None?
    ensures Ingest(r, limit, base, held, feed) == (held + feed, None)
  {
    IngestGrows(r, limit, base, held, feed);
    assert feed[..|feed|] == feed;
  }

  lemma ClockUp(r: Rules, a: int, b: int, base: int, held: seq<Header>, feed: seq<Header>)
    requires held != [] && a <= b
    requires Ingest(r, a, base, held, feed) == (held + feed, None)
    ensures Ingest(r, b, base, held, feed) == (held + feed, None)
  {
    ClockOnly(r, a, a, base, held, feed);
    ClockOnly(r, a, b, base, held, feed);
    assert InTime(feed, b);
    IngestAllOf(r, b, base, held, feed);
  }

  lemma AcceptedJoin(r: Rules, clock: int, limit: int, newest: int, seed: seq<Header>, suffix: seq<Header>, more: seq<Header>)
    requires |seed| == SEED && AcceptedFrom(r, clock, newest, seed, suffix)
    requires Ingest(r, limit, newest - SEED + 1, seed + suffix, more) == (seed + suffix + more, None)
    ensures AcceptedFrom(r, Max(clock, limit), newest, seed, suffix + more)
  {
    hide Ingest;
    var base, top := newest - SEED + 1, Max(clock, limit);
    ClockUp(r, limit, top, base, seed + suffix, more);
    ClockUp(r, clock, top, base, seed, suffix);
    IngestSplit(r, top, base, seed, suffix, more);
    assert seed + (suffix + more) == seed + suffix + more;
  }

  // What a client based anywhere below its tip ingests extends the chain accepted from the anchor.
  lemma AcceptedExtends(r: Rules, clock: int, limit: int, newest: int, seed: seq<Header>, suffix: seq<Header>,
                        pre: seq<Header>, held: seq<Header>, feed: seq<Header>, n: nat)
    requires |seed| == SEED && AcceptedFrom(r, clock, newest, seed, suffix)
    requires seed + suffix == pre + held && |held| >= LWMA_WINDOW && n <= |feed|
    requires Ingest(r, limit, newest - SEED + 1 + |pre|, held, feed).0 == held + feed[..n]
    ensures AcceptedFrom(r, Max(clock, limit), newest, seed, suffix + feed[..n])
  {
    var base := newest - SEED + 1;
    IngestShift(r, limit, base, pre, held, feed);
    assert pre + (held + feed[..n]) == (pre + held) + feed[..n];
    IngestPrefix(r, limit, base, pre + held, feed, n);
    AcceptedJoin(r, clock, limit, newest, seed, suffix, feed[..n]);
  }

  // ---- One sync ----

  // Why a sync stopped: a header that failed, or the transport. `transient` is the source's reading of the message.
  datatype Failure = BadHeader(fault: Fault) | Transport(transient: bool)

  function Outcome(f: Option<Fault>, tip: int, to: int, transient: bool): Option<Failure> {
    if f.Some? then Some(BadHeader(f.value)) else if tip < to then Some(Transport(transient)) else None
  }

  lemma {:induction false} IngestStops(r: Rules, limit: int, base: int, held: seq<Header>, a: seq<Header>, b: seq<Header>)
    requires held != [] && Ingest(r, limit, base, held, a).1.Some?
    ensures Ingest(r, limit, base, held, a + b) == Ingest(r, limit, base, held, a)
    decreases |a|
  {
    assert (a + b)[0] == a[0] && (a + b)[1..] == a[1..] + b;
    if Check(r, limit, held, base + |held|, a[0]).None? {
      IngestStops(r, limit, base, held + [a[0]], a[1..], b);
    }
  }

  lemma PageStep(r: Rules, limit: int, base: int, held: seq<Header>, page: seq<Header>, rest: seq<Header>)
    requires held != []
    ensures var whole, part := Ingest(r, limit, base, held, page + rest), Ingest(r, limit, base, held, page);
      if part.1.Some? then whole == part && part.0 != []
      else part.0 == held + page && whole == Ingest(r, limit, base, held + page, rest)
  {
    if Ingest(r, limit, base, held, page).1.Some? {
      IngestStops(r, limit, base, held, page, rest);
      IngestGrows(r, limit, base, held, page);
    } else {
      IngestAllOf(r, limit, base, held, page);
      IngestSplit(r, limit, base, held, page, rest);
    }
  }

  // The last height of the page holding cur + 1, or `want`.
  function PageEnd(cur: int, want: int): (to: int)
    requires cur < want
    ensures cur < to <= want
  {
    Min(want, cur + 1 - (cur + 1) % PAGE + PAGE - 1)
  }

  // syncAligned: one request per 512-height page, each ending on a page top or at `want`. `served` are the headers
  // the source answers for the heights above the tip, as far as it answers.
  method SyncAligned(c: LightClient, served: seq<Header>, want: int, limit: int, transient: bool) returns (f: Option<Failure>)
    requires c.chain != [] && |served| <= Max(0, want - c.Tip())
    modifies c
    ensures var out := Ingest(c.rules, limit, c.base, old(c.chain), served);
      c.chain == out.0 && f == Outcome(out.1, c.Tip(), want, transient)
  {
    ghost var all := Ingest(c.rules, limit, c.base, c.chain, served);
    var rest := served;
    while c.Tip() < want
      invariant c.chain != [] && |rest| <= Max(0, want - c.Tip())
      invariant Ingest(c.rules, limit, c.base, c.chain, rest) == all
      decreases want - c.Tip()
    {
      var cur := c.Tip();
      var to := PageEnd(cur, want);
      var n := Min(to - cur, |rest|);
      assert rest == rest[..n] + rest[n..];
      PageStep(c.rules, limit, c.base, c.chain, rest[..n], rest[n..]);
      var bad := c.IngestAll(rest[..n], limit);
      if bad.Some? { return Some(BadHeader(bad.value)); }
      rest := rest[n..];
      if c.Tip() < to { return Some(Transport(transient)); }
    }
    f := None;
  }

  // ---- The lapse floor ----

  function FloorAdvance(seenFloor: int, nodeTip: int, verifiedTip: int): int {
    var cand := Min(nodeTip, verifiedTip + FLOOR_SLACK);
    if cand > seenFloor then cand else seenFloor
  }

  // The floor after a run of syncs: each entry is one (node tip, verified tip) pair of a sync that succeeded.
  function FloorRun(start: int, syncs: seq<(int, int)>): int {
    if syncs == [] then start
    else FloorAdvance(FloorRun(start, syncs[..|syncs| - 1]), syncs[|syncs| - 1].0, syncs[|syncs| - 1].1)
  }

  // Whatever tips a node claims, the floor only rises, never exceeds its start or verified work plus the slack, and is
  // never below a claimed tip, as far as the slack of its own sync lets it count.
  lemma {:induction false} FloorIsBounded(start: int, syncs: seq<(int, int)>, verified: int)
    requires forall s :: s in syncs ==> s.1 <= verified
    ensures start <= FloorRun(start, syncs) <= Max(start, verified + 12)
    ensures forall s :: s in syncs ==> FloorRun(start, syncs) >= s.0 || FloorRun(start, syncs) >= s.1 + 12
  {
    if syncs != [] {
      var init, last := syncs[..|syncs| - 1], syncs[|syncs| - 1];
      assert last in syncs;
      FloorIsBounded(start, init, verified);
      assert forall s :: s in syncs ==> s in init || s == last;
    }
  }

  function FirstHeight(k: int): int { if k == FIRST_CHUNK then FLOOR_HEIGHT else k * CHUNK }

  ghost predicate Sized(chunks: map<int, seq<Header>>, k: int) {
    forall j :: FIRST_CHUNK <= j <= k ==> j in chunks && |chunks[j]| == j * CHUNK + CHUNK - FirstHeight(j)
  }

  lemma VerifiedIsSized(chunks: map<int, seq<Header>>, k: int, anchors: seq<Digest>, floorHash: Digest, hash: Header -> Digest)
    requires k < FIRST_CHUNK + |anchors|
    requires forall j :: FIRST_CHUNK <= j <= k ==> j in chunks && VerifiedChunk(chunks[j], SpecOf(j, anchors, floorHash).value, hash)
    ensures Sized(chunks, k)
  {
  }

  // Where one height of the anchored chain is kept.
  lemma {:induction false} AnchoredAt(chunks: map<int, seq<Header>>, k: int, h: int)
    requires k >= FIRST_CHUNK && Sized(chunks, k) && FLOOR_HEIGHT <= h <= k * CHUNK + CHUNK - 1
    ensures |AnchoredChain(chunks, k)| == k * CHUNK + CHUNK - FLOOR_HEIGHT
    ensures FIRST_CHUNK <= ChunkOf(h) <= k && 0 <= h - FirstHeight(ChunkOf(h)) < |chunks[ChunkOf(h)]|
    ensures AnchoredChain(chunks, k)[h - FLOOR_HEIGHT] == chunks[ChunkOf(h)][h - FirstHeight(ChunkOf(h))]
    decreases k
  {
    var below := AnchoredChain(chunks, k - 1);
    if k > FIRST_CHUNK {
      AnchoredAt(chunks, k - 1, Min(h, k * CHUNK - 1));
      assert |below| == FirstHeight(k) - FLOOR_HEIGHT;
    } else {
      assert below == [];
    }
  }

  // The header read out of an anchored chunk is the header at that height.
  lemma ChunkHeaderAt(chunks: map<int, seq<Header>>, K: int, anchors: seq<Digest>, floorHash: Digest, hash: Header -> Digest, h: int)
    requires K == FIRST_CHUNK + |anchors| - 1 && FLOOR_HEIGHT <= h <= K * CHUNK + CHUNK - 1
    requires forall j :: FIRST_CHUNK <= j <= K ==> j in chunks && VerifiedChunk(chunks[j], SpecOf(j, anchors, floorHash).value, hash)
    ensures FIRST_CHUNK <= ChunkOf(h) <= K && |AnchoredChain(chunks, K)| == K * CHUNK + CHUNK - FLOOR_HEIGHT
    ensures var spec, at := SpecOf(ChunkOf(h), anchors, floorHash).value, AnchoredChain(chunks, K)[h - FLOOR_HEIGHT];
      && spec.firstHeight <= h < spec.firstHeight + |chunks[ChunkOf(h)]|
      && ChunkHeader(chunks[ChunkOf(h)], spec.firstHeight, spec.lastHash, h) == (hash(at), at.merkle)
  {
    VerifiedIsSized(chunks, K, anchors, floorHash, hash);
    AnchoredAt(chunks, K, h);
    var c, spec := chunks[ChunkOf(h)], SpecOf(ChunkOf(h), anchors, floorHash).value;
    assert VerifiedChunk(c, spec, hash);
    ChunkHeaderIsTheHeader(c, spec.firstHeight, if spec.prevHash.Some? then spec.prevHash.value else c[0].prev, spec.lastHash, h, hash);
  }

  // The first height a persist rewrites.
  method FirstRewritten(K: int, persistedTip: int) returns (lo: int)
    requires NewestOf(K) <= persistedTip
    ensures NewestOf(K) < lo <= persistedTip + 1
    ensures lo == LowChunk(K, persistedTip - NewestOf(K)) * CHUNK
  {
    lo := Max(ChunkOf(persistedTip + 1) * CHUNK, NewestOf(K) + 1);
  }

  lemma AnchoredLength(chunks: map<int, seq<Header>>, K: int, anchors: seq<Digest>, floorHash: Digest, hash: Header -> Digest)
    requires K == FIRST_CHUNK + |anchors| - 1 >= FIRST_CHUNK
    requires forall j :: FIRST_CHUNK <= j <= K ==> j in chunks && VerifiedChunk(chunks[j], SpecOf(j, anchors, floorHash).value, hash)
    ensures |AnchoredChain(chunks, K)| == NewestOf(K) + 1 - FLOOR_HEIGHT
  {
    ChunksCompose(chunks, K, anchors, floorHash, hash);
  }

  // The header at a height up to the newest anchor, out of its verified chunk.
  method HeaderBelow(h: int, ghost K: int, chunks: map<int, seq<Header>>, anchors: seq<Digest>, floorHash: Digest, ghost hash: Header -> Digest)
    returns (r: Option<(Digest, Digest)>)
    requires K == FIRST_CHUNK + |anchors| - 1 && FLOOR_HEIGHT <= h <= NewestOf(K)
    requires forall j :: FIRST_CHUNK <= j <= K ==> j in chunks && VerifiedChunk(chunks[j], SpecOf(j, anchors, floorHash).value, hash)
    ensures h - FLOOR_HEIGHT < |AnchoredChain(chunks, K)|
    ensures var at := AnchoredChain(chunks, K)[h - FLOOR_HEIGHT]; r == Some((hash(at), at.merkle))
  {
    ChunkHeaderAt(chunks, K, anchors, floorHash, hash, h);
    var spec := SpecOf(ChunkOf(h), anchors, floorHash).value;
    r := Some(ChunkHeader(chunks[ChunkOf(h)], spec.firstHeight, spec.lastHash, h));
  }

  // Records from the first rewritten height, cut into one put per chunk.
  method CutPuts(recs: seq<Header>, lo: int, tip: int, K: int, ghost persisted: nat, ghost chain: seq<Header>) returns (put: seq<Put>)
    requires persisted < |chain| && tip == NewestOf(K) + |chain|
    requires lo == LowChunk(K, persisted) * CHUNK && NewestOf(K) < lo <= tip && recs == chain[lo - NewestOf(K) - 1..]
    ensures put == PutsFrom(chain, K, LowChunk(K, persisted))
    ensures ChunkOf(tip) == TopChunk(K, |chain|)
  {
    put := [];
    ghost var first := LowChunk(K, persisted);
    var k, last := ChunkOf(lo), ChunkOf(tip);
    assert k == first && last == TopChunk(K, |chain|);
    hide LowChunk, TopChunk, ChunkOf;
    while k <= last
      invariant first <= k <= last + 1
      invariant put + PutsFrom(chain, K, k) == PutsFrom(chain, K, first)
    {
      var a, b := Max(k * CHUNK, lo), Min(k * CHUNK + CHUNK - 1, tip);
      CutIsSlice(recs, lo, tip, first, K, chain, k);
      put := put + [Put(k, recs[a - lo..b - lo + 1])];
      k := k + 1;
    }
  }

  lemma CutIsSlice(recs: seq<Header>, lo: int, tip: int, first: int, K: int, chain: seq<Header>, k: int)
    requires K < first <= k <= TopChunk(K, |chain|) && lo == first * CHUNK <= tip && tip == NewestOf(K) + |chain|
    requires lo - NewestOf(K) - 1 <= |chain| && recs == chain[lo - NewestOf(K) - 1..]
    ensures lo <= k * CHUNK
    ensures var a, b := Max(k * CHUNK, lo), Min(k * CHUNK + CHUNK - 1, tip);
      0 <= a - lo <= b - lo + 1 <= |recs| && recs[a - lo..b - lo + 1] == Slice(chain, K, k)
  {
  }

  lemma Joined(below: seq<Header>, above: seq<Header>, mid: Digest, hash: Header -> Digest)
    requires below != [] && Linked(below, below[0].prev, hash) && hash(below[|below| - 1]) == mid && Linked(above, mid, hash)
    ensures Linked(below + above, below[0].prev, hash) && (below + above)[0] == below[0]
  {
    LinkedConcat(below, above, below[0].prev, hash);
  }

  lemma WorkGrows(r: Rules, a: seq<Header>, b: seq<Header>)
    ensures Work(r, a) <= Work(r, a + b) && ChainWork(r, a) <= ChainWork(r, a + b)
  {
    WorkConcat(r, a, b);
    ChainWorkIsWork(r, a);
    ChainWorkIsWork(r, a + b);
  }

  lemma Appended<T>(a: seq<T>, b: seq<T>, c: seq<T>)
    ensures (a + b) + c == a + (b + c)
  {
  }

  lemma RunSnoc(s: Session, es: seq<Event>, e: Event, hash: Header -> Digest)
    ensures Run(s, es + [e], hash) == Step(Run(s, es, hash), e, hash)
  {
    assert (es + [e])[..|es|] == es;
  }

  lemma ReseedStep(s: Session, es: seq<Event>, got: seq<Header>, r: Rules)
    ensures Run(s, es + [Event.Reseed(got)], r.hash) == Run(s, es, r.hash).(chain := got, persisted := 0, synced := false)
    ensures Work(r, []) == 0
  {
    RunSnoc(s, es, Event.Reseed(got), r.hash);
  }

  lemma NothingToPersist(t: Session, hash: Header -> Digest)
    requires |t.chain| <= t.persisted
    ensures Step(t, Event.Persist, hash) == t
  {
  }

  // A persist of a session in order never fails to merge.
  lemma PersistStep(t: Session, hash: Header -> Digest)
    requires Inv(t, hash) && |t.chain| > t.persisted
    ensures var w := SuffixWriteOf(t.chain, t.K, t.persisted, hash);
      && (t.pending.Some? ==> MergeStoreWrites(t.pending.value, w).Ok?)
      && var u := Step(t, Event.Persist, hash);
         u.(synced := t.synced, wrongFrom := t.wrongFrom) == t.(pending := Some(Queued(t.pending, w)), persisted := |t.chain|)
  {
    SuffixWriteIsJob(t.chain, t.K, t.persisted, hash);
    QueueIsApply(t, SuffixWriteOf(t.chain, t.K, t.persisted, hash), LowChunk(t.K, t.persisted), hash);
  }

  // ---- The session ----

  // What the slot holds: a pin some session wrote on the chain `seen` it had accepted, with that chain's work.
  ghost predicate PinnedBy(r: Rules, newest: int, seed: seq<Header>, pin: Pin, seen: seq<Header>) {
    && Vouched(r, newest, seed, pin, seen)
    && (Work(r, seed + seen) <= MAX_U128 ==> pin.work == Work(r, seed + seen))
  }

  ghost predicate AnchorSeed(r: Rules, newest: int, seed: seq<Header>) {
    && |seed| == SEED && SeedHolds(r, seed, newest - SEED + 1)
    && newest in r.checkpoints && r.hash(seed[SEED - 1]) == r.checkpoints[newest]
  }

  datatype Refusal = ClockRefusal | TransientRefusal | PinRefusal(height: int) | HeadersRefusal | LessWork

  datatype Prepared =
    | Ready(verifiedTip: int, nodeTip: int, floorTip: int, tipKnown: bool)
    | Refused(why: Refusal)

  // How a client at `base` and the walked records hold `suffix`: all of it, or the part from the pin's seed on.
  ghost predicate HeldShape(base: int, chain: seq<Header>, walked: seq<Header>, newest: int, seed: seq<Header>, suffix: seq<Header>) {
    && |chain| >= SEED
    && if base > newest then |walked| == base - newest - 1 && suffix == walked + chain
       else base == newest - SEED + 1 && walked == [] && chain == seed + suffix
  }

  // The records from a height on are the same slice of the suffix wherever the split between walked and client records is.
  lemma HeldFrom(base: int, chain: seq<Header>, walked: seq<Header>, newest: int, seed: seq<Header>, suffix: seq<Header>, lo: int)
    requires |seed| == SEED && HeldShape(base, chain, walked, newest, seed, suffix) && newest < lo < base + |chain|
    ensures 0 <= lo - newest - 1 <= |suffix|
    ensures lo >= base ==> chain[lo - base..] == suffix[lo - newest - 1..]
    ensures lo < base ==> lo - newest - 1 <= |walked| && walked[lo - newest - 1..] + chain == suffix[lo - newest - 1..]
  {
    var at := lo - newest - 1;
    if base > newest && lo < base {
      assert suffix[at..] == walked[at..] + chain;
    } else if base > newest {
      assert suffix[|walked|..] == chain;
      assert suffix[at..] == suffix[|walked|..][lo - base..];
    } else {
      assert chain[|seed|..] == suffix;
      assert chain[lo - base..] == chain[|seed|..][at..];
    }
  }

  ghost function PreOf(base: int, walked: seq<Header>, newest: int, seed: seq<Header>): seq<Header> {
    if base > newest then seed + walked else []
  }

  // What the header source answers one sync with: headers from the height above the client's tip on, the clock's
  // future-drift bound meanwhile, and how the transport's failure reads if they run out.
  datatype Reply = Reply(headers: seq<Header>, limit: int, transient: bool)

  predicate TipKnown(nodeTip: int) { IsSafe(nodeTip) && nodeTip > 0 }

  function Wanted(nodeTip: int, maxEventHeight: int, tip: int): int {
    if TipKnown(nodeTip) then Min(nodeTip, maxEventHeight + FLOOR_SLACK) else tip
  }

  lemma NothingIngested(r: Rules, limit: int, base: int, held: seq<Header>)
    requires held != []
    ensures Ingest(r, limit, base, held, []) == (held, None)
  {
  }

  // ---- What a sync to `want` must come to ----

  // The served headers for the heights from one above `tip` to `to`.
  function UpTo(headers: seq<Header>, tip: int, to: int): seq<Header> { headers[..Min(Max(0, to - tip), |headers|)] }

  // A chain based at `base` reaches a height.
  predicate Reaches(base: int, chain: seq<Header>, h: int) { base + |chain| - 1 >= h }

  // What was served does not continue the chain, and neither the clock nor the transport is to blame.
  predicate Breaks(fault: Option<Fault>, reached: bool, transient: bool) {
    fault == Some(Broken) || fault == Some(PinMismatch) || (fault.None? && !reached && !transient)
  }

  // What a replacement chain, verified from the newest anchor on, decides: adopted exactly when it holds more work than the
  // held chain, at `want` or, if it does not there, at the node's tip; refused for lack of work only when it does not.
  ghost predicate Replaces(r: Rules, newest: int, seed: seq<Header>, work: int, want: int, nodeTip: int, reply: Reply, answer: Option<Refusal>, chain: seq<Header>)
    requires seed != []
  {
    var base := newest - SEED + 1;
    var near := Ingest(r, reply.limit, base, seed, UpTo(reply.headers, newest, want));
    var far := Ingest(r, reply.limit, base, seed, UpTo(reply.headers, newest, nodeTip));
    var ok := near.1.None? && Reaches(base, near.0, want);
    if ok && (ChainWork(r, near.0) > work || nodeTip <= want) then
      if ChainWork(r, near.0) > work then answer.None? && chain == near.0 else answer == Some(LessWork)
    else if ok && far.1.None? && Reaches(base, far.0, nodeTip) then
      if ChainWork(r, far.0) > work then answer.None? && chain == far.0 else answer == Some(LessWork)
    else
      var last, to := if ok then far else near, if ok then nodeTip else want;
      answer.Some? && FailsFor(answer.value, last.1, base + |last.0| - 1, Reaches(base, last.0, to), newest, reply.transient)
  }

  // Why a replacement that fails is refused: the clock and the transport as such; nothing served linking to the newest
  // anchor, or a pinned hash missed, as a fault of the pin; else the served headers.
  ghost predicate FailsFor(why: Refusal, fault: Option<Fault>, tip: int, reached: bool, newest: int, transient: bool) {
    match why
    case ClockRefusal => fault == Some(Clock)
    case TransientRefusal => fault.None? && !reached && transient
    case PinRefusal(h) => Breaks(fault, reached, transient) && if tip == newest then h == newest else fault == Some(PinMismatch) && h == tip + 1
    case HeadersRefusal => Breaks(fault, reached, transient) && tip != newest && fault != Some(PinMismatch)
    case LessWork => false
  }

  // The chain and answer of one sync: the held chain extended, refused for the clock or the transport, or, when what is
  // served breaks it, what the replacement decides.
  ghost predicate CaughtUp(r: Rules, newest: int, seed: seq<Header>, base: int, held: seq<Header>, below: int, want: int, nodeTip: int,
                           first: Reply, second: Reply, answer: Option<Refusal>, chain: seq<Header>)
    requires held != [] && seed != []
  {
    var out := Ingest(r, first.limit, base, held, UpTo(first.headers, base + |held| - 1, want));
    if Breaks(out.1, Reaches(base, out.0, want), first.transient) then
      Replaces(r, newest, seed, ChainWork(r, out.0) + below, want, nodeTip, second, answer, chain) && (answer.Some? ==> chain == out.0)
    else
      && chain == out.0
      && (out.1 == Some(Clock) ==> answer == Some(ClockRefusal))
      && (out.1.None? ==> answer == if Reaches(base, out.0, want) then None else Some(TransientRefusal))
  }

  lemma NoBreak(r: Rules, newest: int, seed: seq<Header>, base: int, held: seq<Header>, below: int, want: int, nodeTip: int,
                first: Reply, second: Reply, f: Option<Failure>, answer: Option<Refusal>, chain: seq<Header>)
    requires held != [] && seed != [] && want > base + |held| - 1
    requires var out := Ingest(r, first.limit, base, held, first.headers[..Min(want - (base + |held| - 1), |first.headers|)]);
      chain == out.0 && f == Outcome(out.1, base + |chain| - 1, want, first.transient)
    requires f.None? || f == Some(BadHeader(Clock)) || f == Some(Transport(true))
    requires answer == if f.None? then None else if f == Some(BadHeader(Clock)) then Some(ClockRefusal) else Some(TransientRefusal)
    ensures CaughtUp(r, newest, seed, base, held, below, want, nodeTip, first, second, answer, chain)
  {
    hide Ingest, Outcome, Replaces;
    OutcomeIs(Ingest(r, first.limit, base, held, first.headers[..Min(want - (base + |held| - 1), |first.headers|)]).1, base + |chain| - 1, want, first.transient);
  }

  lemma BreakDecides(r: Rules, newest: int, seed: seq<Header>, base: int, held: seq<Header>, below: int, want: int, nodeTip: int,
                     first: Reply, second: Reply, f: Option<Failure>, kept: seq<Header>, answer: Option<Refusal>, chain: seq<Header>)
    requires held != [] && seed != [] && want > base + |held| - 1
    requires var out := Ingest(r, first.limit, base, held, first.headers[..Min(want - (base + |held| - 1), |first.headers|)]);
      kept == out.0 && f == Outcome(out.1, base + |kept| - 1, want, first.transient)
    requires f.Some? && f != Some(BadHeader(Clock)) && f != Some(Transport(true))
    requires Replaces(r, newest, seed, ChainWork(r, kept) + below, want, nodeTip, second, answer, chain) && (answer.Some? ==> chain == kept)
    ensures CaughtUp(r, newest, seed, base, held, below, want, nodeTip, first, second, answer, chain)
  {
    hide Ingest, Outcome, Replaces;
    OutcomeIs(Ingest(r, first.limit, base, held, first.headers[..Min(want - (base + |held| - 1), |first.headers|)]).1, base + |kept| - 1, want, first.transient);
  }

  // The refusal of a replacement chain that failed with the fresh client at `tip`.
  function RefusalOf(f: Failure, tip: int, newest: int): Refusal {
    if f == BadHeader(Clock) then ClockRefusal
    else if f == Transport(true) then TransientRefusal
    else if tip == newest then PinRefusal(newest)
    else if f == BadHeader(PinMismatch) then PinRefusal(tip + 1)
    else HeadersRefusal
  }

  lemma OutcomeIs(fault: Option<Fault>, tip: int, to: int, transient: bool)
    ensures var f := Outcome(fault, tip, to, transient);
      && (f.None? <==> fault.None? && tip >= to)
      && (f == Some(BadHeader(Clock)) <==> fault == Some(Clock))
      && (f == Some(Transport(true)) <==> fault.None? && tip < to && transient)
      && (f.Some? && f != Some(BadHeader(Clock)) && f != Some(Transport(true)) <==> Breaks(fault, tip >= to, transient))
  {
    match fault
    case None =>
    case Some(Clock) =>
    case Some(Broken) =>
    case Some(PinMismatch) =>
  }

  lemma RefusalFits(fault: Option<Fault>, tip: int, to: int, transient: bool, newest: int)
    requires Outcome(fault, tip, to, transient).Some?
    ensures FailsFor(RefusalOf(Outcome(fault, tip, to, transient).value, tip, newest), fault, tip, tip >= to, newest, transient)
  {
    match fault
    case None =>
    case Some(Clock) =>
    case Some(Broken) =>
    case Some(PinMismatch) =>
  }

  lemma SecondLeg(r: Rules, limit: int, base: int, seed: seq<Header>, headers: seq<Header>, n: nat, m: nat)
    requires seed != [] && n + m <= |headers| && Ingest(r, limit, base, seed, headers[..n]) == (seed + headers[..n], None)
    ensures Ingest(r, limit, base, seed, headers[..n + m]) == Ingest(r, limit, base, seed + headers[..n], headers[n..n + m])
  {
    assert headers[..n + m] == headers[..n] + headers[n..n + m];
    IngestSplit(r, limit, base, seed, headers[..n], headers[n..n + m]);
  }

  // What a fresh client holds and how its sync ended: one leg to `want`, and a second to the node's tip when it would lose.
  ghost predicate FreshEnds(r: Rules, newest: int, seed: seq<Header>, work: int, want: int, nodeTip: int, reply: Reply, chain: seq<Header>, f: Option<Failure>)
    requires seed != []
  {
    var base := newest - SEED + 1;
    var near := Ingest(r, reply.limit, base, seed, UpTo(reply.headers, newest, want));
    var far := Ingest(r, reply.limit, base, seed, UpTo(reply.headers, newest, nodeTip));
    if near.1.None? && Reaches(base, near.0, want) && ChainWork(r, near.0) <= work && nodeTip > want
    then chain == far.0 && f == Outcome(far.1, base + |chain| - 1, nodeTip, reply.transient)
    else chain == near.0 && f == Outcome(near.1, base + |chain| - 1, want, reply.transient)
  }

  // The first leg settles it, or stands at `want` on all it was served.
  lemma FirstLegEnds(r: Rules, newest: int, seed: seq<Header>, work: int, want: int, nodeTip: int, reply: Reply, chain: seq<Header>, f: Option<Failure>)
    requires |seed| == SEED && want > newest
    requires var near := Ingest(r, reply.limit, newest - SEED + 1, seed, reply.headers[..Min(want - newest, |reply.headers|)]);
      chain == near.0 && f == Outcome(near.1, newest - SEED + |chain|, want, reply.transient)
    ensures f.Some? || ChainWork(r, chain) > work || nodeTip <= newest - SEED + |chain| ==> FreshEnds(r, newest, seed, work, want, nodeTip, reply, chain, f)
    ensures f.None? ==> newest - SEED + |chain| == want && want - newest <= |reply.headers|
    ensures f.None? ==> chain == seed + reply.headers[..want - newest] && Ingest(r, reply.limit, newest - SEED + 1, seed, reply.headers[..want - newest]) == (chain, None)
  {
    hide Ingest, ChainWork, Outcome;
    var n := Min(want - newest, |reply.headers|);
    OutcomeIs(Ingest(r, reply.limit, newest - SEED + 1, seed, reply.headers[..n]).1, newest - SEED + |chain|, want, reply.transient);
    IngestGrows(r, reply.limit, newest - SEED + 1, seed, reply.headers[..n]);
    if f.None? { IngestAllOf(r, reply.limit, newest - SEED + 1, seed, reply.headers[..n]); }
  }

  // The second leg goes on to the node's tip.
  lemma SecondLegEnds(r: Rules, newest: int, seed: seq<Header>, work: int, want: int, nodeTip: int, reply: Reply, chain: seq<Header>, f: Option<Failure>)
    requires |seed| == SEED && newest < want < nodeTip && want - newest <= |reply.headers|
    requires var near := seed + reply.headers[..want - newest];
      && Ingest(r, reply.limit, newest - SEED + 1, seed, reply.headers[..want - newest]) == (near, None) && ChainWork(r, near) <= work
      && var far := Ingest(r, reply.limit, newest - SEED + 1, near, reply.headers[want - newest..Min(nodeTip - newest, |reply.headers|)]);
      chain == far.0 && f == Outcome(far.1, newest - SEED + |chain|, nodeTip, reply.transient)
    ensures FreshEnds(r, newest, seed, work, want, nodeTip, reply, chain, f)
  {
    hide Ingest, ChainWork, Outcome;
    var n := want - newest;
    SecondLeg(r, reply.limit, newest - SEED + 1, seed, reply.headers, n, Min(nodeTip - newest, |reply.headers|) - n);
  }

  lemma FreshDecides(r: Rules, newest: int, seed: seq<Header>, work: int, want: int, nodeTip: int, reply: Reply, chain: seq<Header>, f: Option<Failure>, held: seq<Header>)
    requires |seed| == SEED && FreshEnds(r, newest, seed, work, want, nodeTip, reply, chain, f)
    ensures f.Some? ==> Replaces(r, newest, seed, work, want, nodeTip, reply, Some(RefusalOf(f.value, newest - SEED + |chain|, newest)), held)
    ensures f.None? && ChainWork(r, chain) <= work ==> Replaces(r, newest, seed, work, want, nodeTip, reply, Some(LessWork), held)
    ensures f.None? && ChainWork(r, chain) > work ==> Replaces(r, newest, seed, work, want, nodeTip, reply, None, chain)
  {
    hide Ingest, ChainWork, Outcome, RefusalOf, FailsFor;
    var base := newest - SEED + 1;
    var near := Ingest(r, reply.limit, base, seed, UpTo(reply.headers, newest, want));
    var far := Ingest(r, reply.limit, base, seed, UpTo(reply.headers, newest, nodeTip));
    OutcomeIs(near.1, base + |near.0| - 1, want, reply.transient);
    OutcomeIs(far.1, base + |far.0| - 1, nodeTip, reply.transient);
    if f.Some? {
      if chain == near.0 && f == Outcome(near.1, base + |chain| - 1, want, reply.transient) { RefusalFits(near.1, base + |near.0| - 1, want, reply.transient, newest); }
      if chain == far.0 && f == Outcome(far.1, base + |chain| - 1, nodeTip, reply.transient) { RefusalFits(far.1, base + |far.0| - 1, nodeTip, reply.transient, newest); }
    }
  }

  lemma NothingAccepted(r: Rules, limit: int, newest: int, seed: seq<Header>)
    requires seed != []
    ensures AcceptedFrom(r, limit, newest, seed, [])
  {
    assert seed + [] == seed;
  }

  // An anchored client ingests more; `got` is what it holds above the anchor.
  method SyncFresh(c: LightClient, newest: int, seed: seq<Header>, ghost got: seq<Header>, served: seq<Header>, want: int, limit: int, transient: bool)
    returns (f: Option<Failure>, ghost more: seq<Header>)
    requires |seed| == SEED && c.base == newest - SEED + 1 && c.chain == seed + got
    requires AcceptedFrom(c.rules, limit, newest, seed, got) && |served| <= Max(0, want - c.Tip())
    modifies c
    ensures c.chain == seed + more && AcceptedFrom(c.rules, limit, newest, seed, more)
    ensures got <= more <= got + served
    ensures f.None? ==> more == got + served && c.Tip() >= want
    ensures var out := Ingest(c.rules, limit, c.base, old(c.chain), served); c.chain == out.0 && f == Outcome(out.1, c.Tip(), want, transient)
  {
    hide AcceptedFrom, Ingest;
    ghost var held := c.chain;
    f := SyncAligned(c, served, want, limit, transient);
    IngestGrows(c.rules, limit, c.base, held, served);
    ghost var n := |c.chain| - |held|;
    more := got + served[..n];
    assert seed + got == [] + held;
    AcceptedExtends(c.rules, limit, limit, newest, seed, got, [], held, served, n);
    Appended(seed, got, served[..n]);
    assert served == served[..n] + served[n..];
  }

  class SpvSource {
    const rules: Rules
    const K: int
    const seed: seq<Header>
    const writer: StoreWriter
    const restorePin: Option<Pin>
    const persistedFloor: int
    var lc: LightClient
    var walked: seq<Header>
    var workBase: int
    var persistedTip: int
    var seenFloor: int
    var slot: Option<Pin>
    ghost var slotSeen: seq<Header>
    ghost var suffix: seq<Header>     // every held record above the newest anchor
    ghost var clock: int              // the widest drift bound a held header was judged by
    ghost const start: Session
    ghost var syncs: seq<(int, int)>  // node tip and verified tip of every sync that succeeded
    ghost var trace: seq<Event>       // what this session did to its stored suffix

    function Newest(): int { NewestOf(K) }

    function HeldWork(): int
      reads `lc, `workBase, lc
    {
      ChainWork(rules, lc.chain) + workBase
    }

    // The records below the light client's: the anchor seed and the walked ones when it was seeded at the pin.
    ghost function Pre(): seq<Header>
      reads `lc, `walked, lc
    {
      PreOf(lc.base, walked, Newest(), seed)
    }

    ghost predicate Shape()
      reads `lc, `walked, `suffix, lc
    {
      lc.rules == rules && HeldShape(lc.base, lc.chain, walked, Newest(), seed, suffix)
    }

    ghost predicate Layout()
      reads `lc, `walked, `suffix, `persistedTip, lc
    {
      K >= FIRST_CHUNK && |seed| == SEED && Shape() && Newest() <= persistedTip <= lc.Tip()
    }

    // What the session vouches for: the chain it holds, the work it counts, the pin it left.
    ghost predicate Trusted()
      reads `lc, `walked, `workBase, `slot, `slotSeen, `suffix, `clock, lc
    {
      && AnchorSeed(rules, Newest(), seed)
      && AcceptedFrom(rules, clock, Newest(), seed, suffix)
      && (Work(rules, seed + suffix) <= MAX_U128 ==> workBase == Work(rules, Pre()))
      && (slot.Some? && slot.value.newest == Newest() ==> PinnedBy(rules, Newest(), seed, slot.value, slotSeen))
    }

    ghost predicate ChainValid()
      reads `lc, `walked, `workBase, `persistedTip, `slot, `slotSeen, `suffix, `clock, lc
    {
      Layout() && Trusted()
    }

    ghost predicate Tracked(t: Session)
      reads `suffix, `persistedTip, writer, writer.store
    {
      && t.K == K && t.disk == Disk(writer.store.chunks, writer.store.head) && t.chain == suffix
      && t.persisted == persistedTip - Newest() && t.inflight == writer.inflight && t.pending == writer.pending
    }

    ghost predicate Valid()
      reads this, lc, writer, writer.store
    {
      && ChainValid() && writer.Valid()
      && Restored(start) && Tracked(Run(start, trace, rules.hash))
      && seenFloor == FloorRun(persistedFloor, syncs)
    }

    lemma ShapeFacts()
      requires |seed| == SEED && Shape()
      ensures seed + suffix == Pre() + lc.chain
      ensures lc.base == Newest() - SEED + 1 + |Pre()|
    {
    }

    lemma TipFacts()
      requires |seed| == SEED && Shape()
      ensures lc.Tip() == Newest() + |suffix|
    {
    }

    lemma AboveAnchor()
      requires Valid()
      ensures AnchorSeed(rules, Newest(), seed) && lc.Tip() >= Newest()
    {
    }

    lemma LastFacts()
      requires |seed| == SEED && Shape() && suffix != []
      ensures suffix[|suffix| - 1] == lc.chain[|lc.chain| - 1]
    {
    }

    // The held work is the work of the whole chain from the anchor's seed on, however the session was restored.
    lemma HeldIsWork()
      requires ChainValid() && Work(rules, seed + suffix) <= MAX_U128
      ensures HeldWork() == Work(rules, seed + suffix)
    {
      ShapeFacts();
      WorkConcat(rules, Pre(), lc.chain);
      ChainWorkIsWork(rules, lc.chain);
    }

    // Anchored chunks, walked records and the light client's records are one hash-linked chain from the floor.
    lemma OneChain(chunks: map<int, seq<Header>>, anchors: seq<Digest>, floorHash: Digest)
      requires ChainValid() && |anchors| == K - FIRST_CHUNK + 1
      requires anchors[K - FIRST_CHUNK] == rules.checkpoints[Newest()]
      requires forall j :: FIRST_CHUNK <= j <= K ==> j in chunks && VerifiedChunk(chunks[j], SpecOf(j, anchors, floorHash).value, rules.hash)
      ensures var below, all := AnchoredChain(chunks, K), AnchoredChain(chunks, K) + suffix;
        && |all| == lc.Tip() - FLOOR_HEIGHT + 1 && |below| == Newest() + 1 - FLOOR_HEIGHT
        && Linked(all, all[0].prev, rules.hash) && rules.hash(all[0]) == floorHash
    {
      TipFacts();
      ChunksCompose(chunks, K, anchors, floorHash, rules.hash);
      SuffixLinks();
      Joined(AnchoredChain(chunks, K), suffix, rules.checkpoints[Newest()], rules.hash);
    }

    // Every height from the floor to the tip lies in one of three ranges, split at the newest anchor and at the light
    // client's base, and the range it lies in keeps its record: an anchored chunk, a walked record, or the client's chain.
    lemma HeldAtIsInChain(chunks: map<int, seq<Header>>, h: int)
      requires Layout() && Sized(chunks, K) && FLOOR_HEIGHT <= h <= lc.Tip()
      ensures |AnchoredChain(chunks, K)| == Newest() + 1 - FLOOR_HEIGHT && lc.Tip() == Newest() + |suffix|
      ensures var held := (AnchoredChain(chunks, K) + suffix)[h - FLOOR_HEIGHT];
        && HeldAt(chunks, h) == held
        && (h <= Newest() ==> 0 <= h - FirstHeight(ChunkOf(h)) < |chunks[ChunkOf(h)]| && chunks[ChunkOf(h)][h - FirstHeight(ChunkOf(h))] == held)
        && (Newest() < h < lc.base ==> h - Newest() - 1 < |walked| && walked[h - Newest() - 1] == held)
        && (Newest() < h && lc.base <= h ==> h - lc.base < |lc.chain| && lc.chain[h - lc.base] == held)
    {
      TipFacts();
      AnchoredAt(chunks, K, Min(h, Newest()));
      if h > Newest() { HeldAbove(h); }
    }

    lemma HeldAbove(h: int)
      requires Layout() && Newest() < h <= lc.Tip()
      ensures |suffix| == lc.Tip() - Newest()
      ensures h < lc.base ==> h - Newest() - 1 < |walked| && walked[h - Newest() - 1] == suffix[h - Newest() - 1]
      ensures lc.base <= h ==> h - lc.base < |lc.chain| && lc.chain[h - lc.base] == suffix[h - Newest() - 1]
    {
      TipFacts();
    }

    lemma SuffixLinks()
      requires ChainValid()
      ensures Linked(seed + suffix, seed[0].prev, rules.hash)
      ensures Linked(suffix, rules.checkpoints[Newest()], rules.hash)
    {
      IngestLinks(rules, clock, Newest() - SEED + 1, seed, suffix, seed[0].prev);
      LinkedConcat(seed, suffix, seed[0].prev, rules.hash);
    }

    constructor (rules: Rules, K: int, seed: seq<Header>, writer: StoreWriter, pin: Option<Pin>, ghost seen: seq<Header>,
                 floor: int, lc: LightClient, walked: seq<Header>, workBase: int,
                 ghost suffix: seq<Header>, ghost clock: int, ghost start: Session)
      ensures this.rules == rules && this.K == K && this.seed == seed && this.writer == writer && restorePin == pin
      ensures persistedFloor == seenFloor == floor && this.lc == lc && this.walked == walked && this.workBase == workBase
      ensures persistedTip == lc.Tip() && slot == pin && slotSeen == seen && this.suffix == suffix && this.clock == clock
      ensures this.start == start && trace == [] && syncs == []
    {
      this.rules, this.K, this.seed, this.writer, restorePin := rules, K, seed, writer, pin;
      persistedFloor, seenFloor, this.lc, this.walked, this.workBase := floor, floor, lc, walked, workBase;
      persistedTip, slot, slotSeen, this.suffix, this.clock := lc.Tip(), pin, seen, suffix, clock;
      this.start, trace, syncs := start, [], [];
    }

    // Everything from the chunk holding persistedTip + 1 to the tip, the head, and the cut above it; the pin follows.
    method SuffixWrite(saved: bool) returns (w: Option<StoreWrite>)
      requires ChainValid()
      modifies this`persistedTip, this`slot, this`slotSeen
      ensures ChainValid() && persistedTip == lc.Tip()
      ensures w == if lc.Tip() <= old(persistedTip) then None
                   else Some(SuffixWriteOf(suffix, K, old(persistedTip) - Newest(), rules.hash))
      ensures lc.chain != []
      ensures slot == (if w.Some? && saved && Pinnable() then Some(Pin(Newest(), lc.Tip(), rules.hash(lc.chain[|lc.chain| - 1]), HeldWork())) else old(slot))
    {
      TipFacts();
      w := NextWrite();
      if w.None? { return; }
      persistedTip := lc.Tip();
      WritePin(saved);
    }

    method NextWrite() returns (w: Option<StoreWrite>)
      requires Layout()
      ensures w == if lc.Tip() <= persistedTip then None
                   else Some(SuffixWriteOf(suffix, K, persistedTip - Newest(), rules.hash))
    {
      TipFacts();
      var tip := lc.Tip();
      if tip <= persistedTip { return None; }
      var put := NextPuts();
      LastFacts();
      var head := Head(tip, rules.hash(lc.chain[|lc.chain| - 1]));
      w := Some(StoreWrite(put, [], Some(ChunkOf(tip)), Some(head)));
    }

    method NextPuts() returns (put: seq<Put>)
      requires Layout() && persistedTip < lc.Tip()
      ensures put == PutsFrom(suffix, K, LowChunk(K, persistedTip - Newest()))
      ensures ChunkOf(lc.Tip()) == TopChunk(K, |suffix|)
    {
      TipFacts();
      var lo := FirstRewritten(K, persistedTip);
      var recs := RecordsFrom(lo);
      put := CutPuts(recs, lo, lc.Tip(), K, persistedTip - Newest(), suffix);
    }

    // The held records from height `lo` on.
    method RecordsFrom(lo: int) returns (recs: seq<Header>)
      requires Layout() && NewestOf(K) < lo <= lc.Tip()
      ensures lo - NewestOf(K) - 1 <= |suffix| && recs == suffix[lo - NewestOf(K) - 1..]
    {
      hide HeldShape;
      HeldFrom(lc.base, lc.chain, walked, Newest(), seed, suffix, lo);
      var own := lc.chain[Max(lo, lc.base) - lc.base..];
      recs := if lo >= lc.base then own else walked[lo - Newest() - 1..] + own;
    }

    // A pin taken at the tip is one a later session may restore from.
    lemma PinHolds()
      requires ChainValid() && |suffix| >= SEED
      ensures PinnedBy(rules, Newest(), seed, Pin(Newest(), lc.Tip(), rules.hash(lc.chain[|lc.chain| - 1]), HeldWork()), suffix)
    {
      TipFacts();
      LastFacts();
      if Work(rules, seed + suffix) <= MAX_U128 { HeldIsWork(); }
    }

    // A pin has 46 records above the anchor at least, and is not the one this session was restored from.
    ghost predicate Pinnable()
      reads this, lc
      requires lc.chain != []
    {
      && lc.Tip() - Newest() >= 46
      && !(restorePin.Some? && restorePin.value.tip == lc.Tip() && restorePin.value.hash == rules.hash(lc.chain[|lc.chain| - 1]))
    }

    // Pins the session at the light client's tip. `saved` is the fate of the write to the slot.
    method WritePin(saved: bool)
      requires ChainValid()
      modifies this`slot, this`slotSeen
      ensures ChainValid()
      ensures slot == (if saved && Pinnable() then Some(Pin(Newest(), lc.Tip(), rules.hash(lc.chain[|lc.chain| - 1]), HeldWork())) else old(slot))
    {
      TipFacts();
      var tip, hash := lc.Tip(), rules.hash(lc.chain[|lc.chain| - 1]);
      if tip - Newest() < SEED { return; }
      if restorePin.Some? && restorePin.value.tip == tip && restorePin.value.hash == hash { return; }
      if saved {
        PinHolds();
        slot, slotSeen := Some(Pin(Newest(), tip, hash, HeldWork())), suffix;
      }
    }

    // The hash and merkle root of the header at `h`, wherever it is kept.
    method HeaderAt(h: int, chunks: map<int, seq<Header>>, anchors: seq<Digest>, floorHash: Digest)
      returns (r: Option<(Digest, Digest)>)
      requires ChainValid() && |anchors| == K - FIRST_CHUNK + 1
      requires forall j :: FIRST_CHUNK <= j <= K ==> j in chunks && VerifiedChunk(chunks[j], SpecOf(j, anchors, floorHash).value, rules.hash)
      ensures |AnchoredChain(chunks, K)| == Newest() + 1 - FLOOR_HEIGHT && |suffix| == lc.Tip() - Newest()
      ensures r == if FLOOR_HEIGHT <= h <= lc.Tip() then Some((rules.hash(HeldAt(chunks, h)), HeldAt(chunks, h).merkle)) else None
    {
      TipFacts();
      AnchoredLength(chunks, K, anchors, floorHash, rules.hash);
      if h < FLOOR_HEIGHT { return None; }
      if h > Newest() {
        SuffixLinks();
        r := HeaderAbove(h);
      } else {
        r := HeaderBelow(h, K, chunks, anchors, floorHash, rules.hash);
      }
    }

    // The record at height `h`: of the anchored chain up to the newest anchor, of the suffix above it.
    ghost function HeldAt(chunks: map<int, seq<Header>>, h: int): Header
      requires K >= FIRST_CHUNK && forall j :: FIRST_CHUNK <= j <= K ==> j in chunks
      requires FLOOR_HEIGHT <= h && |AnchoredChain(chunks, K)| == Newest() + 1 - FLOOR_HEIGHT && h <= Newest() + |suffix|
      reads this, lc
    {
      if h <= Newest() then AnchoredChain(chunks, K)[h - FLOOR_HEIGHT] else suffix[h - Newest() - 1]
    }

    // The same above the newest anchor: a walked record, or one of the light client's.
    method HeaderAbove(h: int) returns (r: Option<(Digest, Digest)>)
      requires Layout() && h > Newest() && Newest() in rules.checkpoints
      requires Linked(suffix, rules.checkpoints[Newest()], rules.hash)
      ensures var i := h - Newest() - 1;
        r == if i < |suffix| then Some((rules.hash(suffix[i]), suffix[i].merkle)) else None
    {
      TipFacts();
      if h < lc.base {
        WalkedEnds();
        ChunkHeaderIsTheHeader(walked, Newest() + 1, rules.checkpoints[Newest()], lc.chain[0].prev, h, rules.hash);
        r := Some(ChunkHeader(walked, Newest() + 1, lc.chain[0].prev, h));
      } else if h - lc.base < |lc.chain| {
        var v := lc.chain[h - lc.base];
        r := Some((rules.hash(v), v.merkle));
      } else {
        r := None;
      }
    }

    // The walked records link up to the light client's first.
    lemma WalkedEnds()
      requires Layout() && Newest() in rules.checkpoints && walked != []
      requires Linked(suffix, rules.checkpoints[Newest()], rules.hash)
      ensures Linked(walked, rules.checkpoints[Newest()], rules.hash)
      ensures rules.hash(walked[|walked| - 1]) == lc.chain[0].prev
    {
      LinkedConcat(walked, lc.chain, rules.checkpoints[Newest()], rules.hash);
      LinkedAt(lc.chain, 0, EndHash(walked, rules.checkpoints[Newest()], rules.hash), rules.hash);
    }

    // ---- Syncing ----

    // The light client ingests what it is served up to `want`.
    method SyncChain(served: seq<Header>, want: int, limit: int, transient: bool) returns (f: Option<Failure>)
      requires ChainValid() && |served| <= Max(0, want - lc.Tip())
      modifies this`suffix, this`clock, lc
      ensures ChainValid() && old(suffix) <= suffix && HeldWork() >= old(HeldWork())
      ensures f.None? ==> lc.Tip() == Max(want, old(lc.Tip()))
      ensures var out := Ingest(rules, limit, lc.base, old(lc.chain), served); lc.chain == out.0 && f == Outcome(out.1, lc.Tip(), want, transient)
    {
      hide AnchorSeed, Ingest, PinnedBy, Work, ChainWork;
      ShapeFacts();
      ghost var chain0, suffix0, pre := lc.chain, suffix, Pre();
      f := SyncAligned(lc, served, want, limit, transient);
      IngestGrows(rules, limit, lc.base, chain0, served);
      ghost var n := |lc.chain| - |chain0|;
      AcceptedExtends(rules, clock, limit, Newest(), seed, suffix0, pre, chain0, served, n);
      suffix, clock := suffix0 + served[..n], Max(clock, limit);
      WorkGrows(rules, chain0, served[..n]);
      assert Layout() by { Appended(walked, chain0, served[..n]); Appended(seed, suffix0, served[..n]); }
      WorkGrows(rules, seed + suffix0, served[..n]);
      Appended(seed, suffix0, served[..n]);
    }

    method Sync(served: seq<Header>, want: int, limit: int, transient: bool) returns (f: Option<Failure>)
      requires Valid() && |served| <= Max(0, want - lc.Tip())
      modifies this`suffix, this`clock, this`trace, lc
      ensures Valid() && old(suffix) <= suffix && HeldWork() >= old(HeldWork())
      ensures f.None? ==> lc.Tip() == Max(want, old(lc.Tip()))
      ensures var out := Ingest(rules, limit, lc.base, old(lc.chain), served); lc.chain == out.0 && f == Outcome(out.1, lc.Tip(), want, transient)
    {
      hide Ingest;
      f := SyncChain(served, want, limit, transient);
      ghost var part := suffix[|old(suffix)|..];
      RunSnoc(start, trace, Extend(part), rules.hash);
      trace := trace + [Extend(part)];
    }

    // Hands the new part of the suffix to the store writer.
    method Persist(saved: bool)
      requires Valid()
      modifies this`persistedTip, this`slot, this`slotSeen, this`trace, writer
      ensures Valid() && persistedTip == lc.Tip()
    {
      hide Trusted, Inv, SuffixWriteOf, Restored, MergeStoreWrites, Step, Run, Shape;
      TipFacts();
      ghost var t := Run(start, trace, rules.hash);
      RunKeepsInv(start, trace, rules.hash);
      RunSnoc(start, trace, Event.Persist, rules.hash);
      if |t.chain| <= t.persisted { NothingToPersist(t, rules.hash); }
      trace := trace + [Event.Persist];
      var w := SuffixWrite(saved);
      if w.Some? {
        PersistStep(t, rules.hash);
        var _ := writer.Detach(w.value);
      }
    }

    // syncWithPartialPersist, then the last leg: verified progress is handed over every SYNC_PERSIST_WINDOW headers. The
    // windows ingest what one sync would.
    method Advance(served: seq<Header>, want: int, limit: int, transient: bool, saved: bool) returns (f: Option<Failure>)
      requires Valid() && |served| <= Max(0, want - lc.Tip())
      modifies this`suffix, this`clock, this`trace, this`persistedTip, this`slot, this`slotSeen, lc, writer
      ensures Valid() && old(suffix) <= suffix && HeldWork() >= old(HeldWork())
      ensures f.None? ==> lc.Tip() == Max(want, old(lc.Tip()))
      ensures var out := Ingest(rules, limit, lc.base, old(lc.chain), served); lc.chain == out.0 && f == Outcome(out.1, lc.Tip(), want, transient)
    {
      hide Trusted, Layout, Run, Restored, Tracked, Ingest;
      var rest := served;
      var next := lc.Tip() + SYNC_PERSIST_WINDOW;
      ShapeOf();
      ghost var all := Ingest(rules, limit, lc.base, lc.chain, served);
      while next < want
        invariant Valid() && old(suffix) <= suffix && HeldWork() >= old(HeldWork())
        invariant |rest| <= Max(0, want - lc.Tip())
        invariant lc.Tip() + SYNC_PERSIST_WINDOW == next
        invariant old(lc.Tip()) <= lc.Tip() && (lc.Tip() <= want || lc.Tip() == old(lc.Tip()))
        invariant Ingest(rules, limit, lc.base, lc.chain, rest) == all
        decreases want - next
      {
        ShapeOf();
        var n := Min(next - lc.Tip(), |rest|);
        assert rest == rest[..n] + rest[n..];
        PageStep(rules, limit, lc.base, lc.chain, rest[..n], rest[n..]);
        IngestGrows(rules, limit, lc.base, lc.chain, rest[..n]);
        f := Sync(rest[..n], next, limit, transient);
        if f.Some? {
          NothingIngested(rules, limit, lc.base, lc.chain);
          return;
        }
        rest := rest[n..];
        Persist(saved);
        next := next + SYNC_PERSIST_WINDOW;
      }
      f := Sync(rest, want, limit, transient);
    }

    lemma ShapeOf()
      requires Valid()
      ensures lc.chain != [] && lc.rules == rules && |seed| == SEED
    {
    }

    // ---- The writer and the acquirer, at any moment ----

    method WriterTakes()
      requires Valid() && writer.busy && writer.inflight.None?
      modifies this`trace, writer
      ensures Valid() && writer.inflight == old(writer.pending)
    {
      hide Trusted, Layout, Restored, Run, Apply, MergeStoreWrites;
      RunSnoc(start, trace, Event.Take, rules.hash);
      trace := trace + [Event.Take];
      writer.Take();
    }

    method WriterLands(commits: bool)
      requires Valid() && writer.inflight.Some?
      modifies this`trace, writer, writer.store
      ensures Valid() && writer.inflight == None
    {
      hide Trusted, Layout, Restored, Run, Apply, MergeStoreWrites;
      RunSnoc(start, trace, Event.Land(commits), rules.hash);
      trace := trace + [Event.Land(commits)];
      writer.Land(commits);
    }

    method AcquirerWrites(w: StoreWrite, commits: bool)
      requires Valid() && AnchoredWrite(w, K)
      modifies this`trace, writer.store
      ensures Valid()
    {
      hide Trusted, Layout, Restored, Run, Apply, MergeStoreWrites;
      var ok := writer.store.Write(w, commits);
      if ok {
        RunSnoc(start, trace, Event.Anchored(w), rules.hash);
        trace := trace + [Event.Anchored(w)];
      }
    }

    // ---- Reseeding and prepare ----

    // A client seeded from the anchor chunk in memory and synced to `want`; to `nodeTip` when it would lose on work.
    method FreshSync(reply: Reply, want: int, nodeTip: int) returns (c: LightClient, ghost got: seq<Header>, f: Option<Failure>)
      requires AnchorSeed(rules, Newest(), seed) && want > Newest()
      ensures fresh(c) && c.rules == rules && c.base == Newest() - SEED + 1 && c.chain == seed + got
      ensures AcceptedFrom(rules, reply.limit, Newest(), seed, got) && got <= reply.headers
      ensures f.None? ==> c.Tip() >= want && (ChainWork(rules, c.chain) <= HeldWork() ==> c.Tip() >= nodeTip)
      ensures FreshEnds(rules, Newest(), seed, HeldWork(), want, nodeTip, reply, c.chain, f)
    {
      hide Ingest, ChainWork, SeedHolds, AcceptedFrom, FreshEnds, Outcome;
      ghost var work := HeldWork();
      c := new LightClient(rules, Newest() - SEED + 1, seed);
      got := [];
      assert seed + [] == seed;
      NothingAccepted(rules, reply.limit, Newest(), seed);
      var n := Min(want - c.Tip(), |reply.headers|);
      f, got := SyncFresh(c, Newest(), seed, got, reply.headers[..n], want, reply.limit, reply.transient);
      FirstLegEnds(rules, Newest(), seed, work, want, nodeTip, reply, c.chain, f);
      if f.Some? || ChainWork(rules, c.chain) > HeldWork() || nodeTip <= c.Tip() { return; }
      ghost var short := got;
      var m := Min(nodeTip - c.Tip(), |reply.headers| - n);
      f, got := SyncFresh(c, Newest(), seed, got, reply.headers[n..n + m], nodeTip, reply.limit, reply.transient);
      SecondLegEnds(rules, Newest(), seed, work, want, nodeTip, reply, c.chain, f);
      assert short == reply.headers[..n];
    }

    // The replacement takes over, nothing of it persisted yet.
    method Adopt(c: LightClient, ghost got: seq<Header>, ghost limit: int)
      requires Valid() && c.rules == rules && c.base == Newest() - SEED + 1 && c.chain == seed + got
      requires AcceptedFrom(rules, limit, Newest(), seed, got)
      modifies this`lc, this`walked, this`workBase, this`persistedTip, this`suffix, this`clock, this`trace
      ensures Valid() && lc == c && suffix == got && HeldWork() == ChainWork(rules, c.chain)
    {
      hide AnchorSeed, PinnedBy, AcceptedFrom, ChainWork, Work, Restored, Run, Step;
      ReseedStep(start, trace, got, rules);
      lc, walked, workBase, persistedTip := c, [], 0, Newest();
      suffix, clock := got, limit;
      trace := trace + [Event.Reseed(got)];
    }

    // Brings the chain to `want`, by extending it or, when what is served breaks it, by a replacement with more work.
    method CatchUp(want: int, nodeTip: int, first: Reply, second: Reply, saved: bool) returns (r: Option<Refusal>)
      requires Valid() && want > lc.Tip()
      modifies this`lc, this`walked, this`workBase, this`persistedTip, this`suffix, this`clock, this`trace, this`slot, this`slotSeen, lc, writer
      ensures Valid() && persistedTip == lc.Tip() && |seed| == SEED
      ensures r.Some? ==> lc == old(lc) && old(suffix) <= suffix && HeldWork() >= old(HeldWork())
      ensures r.None? ==> lc.Tip() >= want
      ensures r.None? ==> if lc == old(lc) then old(suffix) <= suffix && HeldWork() >= old(HeldWork())
                          else fresh(lc) && HeldWork() > old(HeldWork())
      ensures old(lc.chain) != [] && CaughtUp(rules, Newest(), seed, old(lc.base), old(lc.chain), old(workBase), want,
                                              if TipKnown(nodeTip) then nodeTip else 0, first, second, r, lc.chain)
    {
      hide Valid, ChainWork, Ingest, RefusalOf, Outcome, CaughtUp, Replaces, FreshEnds, AcceptedFrom;
      AboveAnchor();
      ShapeOf();
      ghost var held, below := lc.chain, workBase;
      var n := Min(want - lc.Tip(), |first.headers|);
      var known := if TipKnown(nodeTip) then nodeTip else 0;
      var f := Advance(first.headers[..n], want, first.limit, first.transient, saved);
      Persist(saved);
      if f.None? || f == Some(BadHeader(Clock)) || f == Some(Transport(true)) {
        r := if f.None? then None else if f == Some(BadHeader(Clock)) then Some(ClockRefusal) else Some(TransientRefusal);
        NoBreak(rules, Newest(), seed, lc.base, held, below, want, known, first, second, f, r, lc.chain);
        return;
      }
      ghost var kept := lc.chain;
      var c, got, f2 := FreshSync(second, want, known);
      FreshDecides(rules, Newest(), seed, HeldWork(), want, known, second, c.chain, f2, lc.chain);
      if f2.Some? || ChainWork(rules, c.chain) <= HeldWork() {
        r := if f2.Some? then Some(RefusalOf(f2.value, c.Tip(), Newest())) else Some(LessWork);
      } else {
        Adopt(c, got, second.limit);
        Persist(saved);
        r := None;
      }
      BreakDecides(rules, Newest(), seed, old(lc.base), held, below, want, known, first, second, f, kept, r, lc.chain);
    }

    method RaiseFloor(nodeTip: int)
      requires Valid()
      modifies this`syncs, this`seenFloor
      ensures Valid() && seenFloor == FloorAdvance(old(seenFloor), nodeTip, lc.Tip())
    {
      hide Trusted, Layout, Run, Restored, Tracked;
      syncs := syncs + [(nodeTip, lc.Tip())];
      assert syncs[..|syncs| - 1] == old(syncs);
      seenFloor := FloorAdvance(seenFloor, nodeTip, lc.Tip());
    }

    method Prepare(maxEventHeight: int, nodeTipReply: Option<int>, first: Reply, second: Reply, saved: bool) returns (p: Prepared)
      requires Valid()
      modifies this, lc, writer
      ensures Valid() && HeldWork() >= old(HeldWork()) && |seed| == SEED
      ensures p.Refused? ==> lc == old(lc) && old(suffix) <= suffix && seenFloor == old(seenFloor) && syncs == old(syncs)
      ensures p.Ready? ==> if lc == old(lc) then old(suffix) <= suffix else fresh(lc) && HeldWork() > old(HeldWork())
      ensures p.Ready? ==>
        var nodeTip := if nodeTipReply.Some? then nodeTipReply.value else 0;
        && (TipKnown(nodeTip) ==> lc.Tip() >= nodeTip || lc.Tip() >= maxEventHeight + 12)
        && seenFloor == FloorAdvance(old(seenFloor), nodeTip, lc.Tip())
        && p == Ready(lc.Tip(), Max(seenFloor, if TipKnown(nodeTip) then nodeTip else 0), persistedFloor, TipKnown(nodeTip))
      ensures
        var nodeTip := if nodeTipReply.Some? then nodeTipReply.value else 0;
        var want := if 0 < nodeTip <= MAX_SAFE then Min(nodeTip, maxEventHeight + 12) else old(lc.Tip());
        && old(lc.chain) != []
        && if want <= old(lc.Tip()) then p.Ready? && lc == old(lc) && lc.chain == old(lc.chain)
           else CaughtUp(rules, Newest(), seed, old(lc.base), old(lc.chain), old(workBase), want, if TipKnown(nodeTip) then nodeTip else 0,
                         first, second, if p.Ready? then None else Some(p.why), lc.chain)
    {
      hide Valid, ChainWork, CaughtUp;
      AboveAnchor();
      ShapeOf();
      var nodeTip := if nodeTipReply.Some? then nodeTipReply.value else 0;
      var want := Wanted(nodeTip, maxEventHeight, lc.Tip());
      if want > lc.Tip() {
        var r := CatchUp(want, nodeTip, first, second, saved);
        if r.Some? { return Refused(r.value); }
      }
      RaiseFloor(nodeTip);
      p := Ready(lc.Tip(), Max(seenFloor, if TipKnown(nodeTip) then nodeTip else 0), persistedFloor, TipKnown(nodeTip));
    }

    // When the writer is idle, a persist has landed and none is lost unrepaired, a restore would read back the persisted chain.
    lemma StoredIsHeld()
      requires Valid() && writer.inflight.None? && writer.pending.None?
      requires Run(start, trace, rules.hash).synced && Run(start, trace, rules.hash).wrongFrom.None?
      ensures Readable(writer.store.chunks, K + 1) == suffix[..persistedTip - Newest()]
      ensures Above(writer.store.chunks, K) == Slices(suffix[..persistedTip - Newest()], K)
    {
      SettledStoreIsChain(start, trace, rules.hash);
    }
  }

  // ---- Restoring a session ----

  // The client seeded at the pin: the walked records `below` it but for its seed, the ones stored `above` ingested
  // with every check.
  method PinClient(r: Rules, newest: int, ghost seed: seq<Header>, below: seq<Header>, above: seq<Header>, pin: Pin, ghost seen: seq<Header>, limit: int)
    returns (lc: LightClient, walked: seq<Header>, workBase: int)
    requires newest >= 0 && |seed| == SEED && PinnedBy(r, newest, seed, pin, seen) && Injective(r.hash)
    requires |below| == pin.tip - newest && Walks(below + above, newest, pin, r.checkpoints, r.hash)
    requires LatestReruns(r, limit, newest, seed, below + above, pin.tip - newest)
    ensures fresh(lc) && lc.rules == r && HeldShape(lc.base, lc.chain, walked, newest, seed, walked + lc.chain)
    ensures walked + lc.chain <= below + above && lc.base == pin.tip - SEED + 1
    ensures seed + walked + lc.chain == Ingest(r, limit, newest - SEED + 1, seed, below + above).0
    ensures Work(r, seed + (walked + lc.chain)) <= MAX_U128 ==> workBase == Work(r, PreOf(lc.base, walked, newest, seed))
  {
    hide Injective, Walks, LatestReruns, HeldShape, PreOf, Ingest, Vouched, Work, ChainWork;
    var cut := |below| - SEED;
    PinRestore(r, limit, newest, seed, pin, seen, below, above);
    lc := new LightClient(r, pin.tip - SEED + 1, below[cut..]);
    var _ := lc.IngestAll(above, limit);
    walked, workBase := below[..cut], pin.work - ChainWork(r, below[cut..]);
    IngestGrows(r, limit, pin.tip - SEED + 1, below[cut..], above);
    PinSuffix(r, newest, seed, below, above, cut, |lc.chain| - SEED, pin);
  }

  lemma PinRestore(r: Rules, limit: int, newest: int, seed: seq<Header>, pin: Pin, seen: seq<Header>, below: seq<Header>, above: seq<Header>)
    requires PinnedBy(r, newest, seed, pin, seen) && Injective(r.hash) && |below| == pin.tip - newest
    requires Walks(below + above, newest, pin, r.checkpoints, r.hash)
    requires |seed| == SEED && LatestReruns(r, limit, newest, seed, below + above, pin.tip - newest)
    ensures below == seen && |below| >= SEED
    ensures var cut := |below| - SEED;
      var pinned := Ingest(r, limit, pin.tip - SEED + 1, below[cut..], above);
      Ingest(r, limit, newest - SEED + 1, seed, below + above) == (seed + below[..cut] + pinned.0, pinned.1)
  {
    hide Injective, Walks, LatestReruns, Ingest, Vouched;
    PinRestoreIsAnchorRestore(r, limit, newest, seed, pin, seen, below + above);
    assert (below + above)[..|below|] == below && (below + above)[|below|..] == above;
  }

  // A client holding the last SEED of `below` and the first m of `above` over the rest of `below`.
  lemma PinSuffix(r: Rules, newest: int, seed: seq<Header>, below: seq<Header>, above: seq<Header>, cut: nat, m: nat, pin: Pin)
    requires cut + SEED == |below| == pin.tip - newest && m <= |above| && PinnedBy(r, newest, seed, pin, below)
    ensures var walked, chain := below[..cut], below[cut..] + above[..m];
      && HeldShape(pin.tip - SEED + 1, chain, walked, newest, seed, walked + chain)
      && walked + chain <= below + above
      && (Work(r, seed + (walked + chain)) <= MAX_U128 ==>
            pin.work - ChainWork(r, below[cut..]) == Work(r, PreOf(pin.tip - SEED + 1, walked, newest, seed)))
  {
    assert PinnedWork(r, seed, pin, below);
    hide Work, ChainWork, PinnedBy, PinnedWork;
    assert below == below[..cut] + below[cut..];
    PinWork(r, seed, below[..cut], below[cut..], above[..m], pin, below);
  }

  ghost predicate PinnedWork(r: Rules, seed: seq<Header>, pin: Pin, seen: seq<Header>) {
    Work(r, seed + seen) <= MAX_U128 ==> pin.work == Work(r, seed + seen)
  }

  // The work a pin-seeded client does not count itself.
  lemma PinWork(r: Rules, seed: seq<Header>, walked: seq<Header>, held: seq<Header>, more: seq<Header>, pin: Pin, seen: seq<Header>)
    requires PinnedWork(r, seed, pin, seen) && seen == walked + held
    ensures Work(r, seed + (walked + (held + more))) <= MAX_U128 ==> pin.work - ChainWork(r, held) == Work(r, seed + walked)
  {
    WorkConcat(r, seed, walked + (held + more));
    WorkConcat(r, walked, held + more);
    WorkConcat(r, held, more);
    WorkConcat(r, seed, seen);
    WorkConcat(r, walked, held);
    WorkConcat(r, seed, walked);
    ChainWorkIsWork(r, held);
  }

  // The client a restore starts from, and the walked records below it.
  method RestoreClient(r: Rules, newest: int, seed: seq<Header>, stored: seq<Header>, pin: Option<Pin>, ghost seen: seq<Header>, limit: int)
    returns (lc: LightClient, walked: seq<Header>, workBase: int, ghost suffix: seq<Header>)
    requires newest >= 0 && AnchorSeed(r, newest, seed)
    requires pin.Some? && pin.value.newest == newest ==> PinnedBy(r, newest, seed, pin.value, seen)
    requires Injective(r.hash)
    ensures fresh(lc) && lc.rules == r && HeldShape(lc.base, lc.chain, walked, newest, seed, suffix)
    ensures suffix <= stored && seed + suffix == Ingest(r, limit, newest - SEED + 1, seed, stored).0
    ensures Work(r, seed + suffix) <= MAX_U128 ==> workBase == Work(r, PreOf(lc.base, walked, newest, seed))
    ensures lc.base == if FromPin(r, newest, seed, stored, pin, limit) then pin.value.tip - 45 else newest - 45
  {
    hide Injective, Walks, LatestReruns, LatestHolds;
    if pin.Some? && SEED <= pin.value.tip - newest <= |stored| {
      var ok := PinUsable(r, newest, seed, stored, pin.value, limit);
      if ok {
        var n := pin.value.tip - newest;
        assert stored == stored[..n] + stored[n..];
        lc, walked, workBase := PinClient(r, newest, seed, stored[..n], stored[n..], pin.value, seen, limit);
        suffix := walked + lc.chain;
        Appended(seed, walked, lc.chain);
        return;
      }
    }
    lc := new LightClient(r, newest - SEED + 1, seed);
    var _ := lc.IngestAll(stored, limit);
    IngestGrows(r, limit, newest - SEED + 1, seed, stored);
    walked, workBase, suffix := [], 0, lc.chain[SEED..];
  }

  // The re-run's records are the walked record and the SEED below it.
  lemma RerunShape(seed: seq<Header>, stored: seq<Header>, newest: int, i: nat)
    requires |seed| == SEED && i < |stored|
    ensures var records := SeedAndSuffix(seed, stored, newest, newest + 1 + i - SEED, newest + 1 + i);
      |records| == SEED + 1 && records[SEED] == stored[i]
  {
  }

  // The latest of the first n records passes every check now over the 46 below it, which seed a client of their own.
  ghost predicate LatestHolds(r: Rules, limit: int, newest: int, seed: seq<Header>, stored: seq<Header>, n: nat)
    requires |seed| == SEED && n <= |stored|
  {
    var i := Latest(stored[..n]).0;
    && LatestReruns(r, limit, newest, seed, stored, n)
    && SeedHolds(r, SeedAndSuffix(seed, stored, newest, newest + 1 + i - SEED, newest + 1 + i)[..SEED], newest + 1 + i - SEED)
  }

  // When a restore starts from the pin.
  ghost predicate FromPin(r: Rules, newest: int, seed: seq<Header>, stored: seq<Header>, pin: Option<Pin>, limit: int)
    requires |seed| == SEED
  {
    && pin.Some? && 46 <= pin.value.tip - newest <= |stored|
    && Walks(stored, newest, pin.value, r.checkpoints, r.hash) && LatestHolds(r, limit, newest, seed, stored, pin.value.tip - newest)
  }

  // The stored suffix walks to the pin, and its latest record passes the clock now.
  method PinUsable(r: Rules, newest: int, seed: seq<Header>, stored: seq<Header>, pin: Pin, limit: int) returns (ok: bool)
    requires newest >= 0 && |seed| == SEED && SEED <= pin.tip - newest <= |stored|
    ensures ok <==> Walks(stored, newest, pin, r.checkpoints, r.hash) && LatestHolds(r, limit, newest, seed, stored, pin.tip - newest)
    ensures ok ==> pin.newest == newest && LatestReruns(r, limit, newest, seed, stored, pin.tip - newest)
  {
    var latest := WalkToPin(stored, newest, pin, r.checkpoints, r.hash);
    if latest.None? { return false; }
    assert pin.newest == newest;
    hide Walks;
    ok := LatestPasses(r, newest, seed, stored, pin.tip - newest, latest.value, limit);
  }

  method LatestPasses(r: Rules, newest: int, seed: seq<Header>, stored: seq<Header>, ghost n: nat, latest: int, limit: int) returns (ok: bool)
    requires |seed| == SEED && 0 < n <= |stored| && latest == newest + 1 + Latest(stored[..n]).0
    ensures ok <==> LatestHolds(r, limit, newest, seed, stored, n)
  {
    hide Check, SeedHolds, SeedAndSuffix, Latest;
    ghost var i := Latest(stored[..n]).0;
    LatestBounds(stored[..n], limit);
    RerunShape(seed, stored, newest, i);
    ok := LatestTimeHolds(r, limit, SeedAndSuffix(seed, stored, newest, latest - SEED, latest), latest - SEED);
  }

  // Opens a session over the store: whatever the pin, the chain it holds is the one a full check from the anchor
  // accepts, and everything a session relies on holds of it.
  method Restore(r: Rules, K: int, seed: seq<Header>, writer: StoreWriter, pin: Option<Pin>, ghost seen: seq<Header>, floor: int, limit: int, saved: bool)
    returns (s: SpvSource)
    requires K >= FIRST_CHUNK && AnchorSeed(r, NewestOf(K), seed) && floor >= 0
    requires writer.Valid() && writer.inflight.None? && writer.pending.None?
    requires pin.Some? && pin.value.newest == NewestOf(K) ==> PinnedBy(r, NewestOf(K), seed, pin.value, seen)
    requires Injective(r.hash)
    ensures fresh(s) && fresh(s.lc) && s.Valid() && s.K == K && s.rules == r && s.seed == seed && s.writer == writer
    ensures seed + s.suffix == Ingest(r, limit, NewestOf(K) - SEED + 1, seed, Readable(writer.store.chunks, K + 1)).0
    ensures s.persistedTip == s.lc.Tip() && s.seenFloor == floor && s.restorePin == pin
    ensures s.lc.base == if FromPin(r, NewestOf(K), seed, Readable(writer.store.chunks, K + 1), pin, limit) then pin.value.tip - 45 else NewestOf(K) - 45
    ensures s.lc.chain != [] && s.slot == if saved && s.Pinnable() then Some(Pin(NewestOf(K), s.lc.Tip(), r.hash(s.lc.chain[|s.lc.chain| - 1]), s.HeldWork())) else pin
  {
    hide Injective, Ingest, SeedHolds, Vouched, Work, FromPin;
    var stored := ReadSuffix(writer.store.chunks, K);
    var lc, walked, workBase, suffix := RestoreClient(r, NewestOf(K), seed, stored, pin, seen, limit);
    assert stored[..|suffix|] == suffix;
    IngestPrefix(r, limit, NewestOf(K) - SEED + 1, seed, stored, |suffix|);
    RestoreAgrees(writer.store.chunks, suffix, K, |suffix|);
    ghost var start := Session(K, Disk(writer.store.chunks, writer.store.head), suffix, |suffix|, None, None, false, None);
    s := new SpvSource(r, K, seed, writer, pin, seen, floor, lc, walked, workBase, suffix, limit, start);
    s.WritePin(saved);
  }
}
