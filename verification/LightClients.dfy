// The light client's acceptance of headers, the work it counts, and the two ways a session restores one: from the
// newest anchor, checking every stored header, or from the session pin, walking the headers below it.

module LightClients {
  import opened Base
  import opened Headers
  import opened HeaderChain

  const LWMA_WINDOW: nat := 45
  const MIN_BLOCK_SPACING_SECS: int := 60
  const MAX_U128: int := 0xFFFF_FFFF_FFFF_FFFF_FFFF_FFFF_FFFF_FFFF

  // The parts of the consensus rules that are arithmetic on hashes and difficulty, taken as given: the block hash,
  // the proof-of-work test, the work of a difficulty, the required difficulty and the median time of a window.
  datatype Rules = Rules(hash: Header -> Digest, pow: Header -> bool, work: nat -> nat,
                         bits: (seq<Header>, int) -> nat, mtp: seq<Header> -> int, checkpoints: map<int, Digest>)

  datatype Fault = Clock | Broken | PinMismatch

  function Last(rs: seq<Header>, n: nat): seq<Header> { if |rs| <= n then rs else rs[|rs| - n..] }

  // verifyOne on top of a non-empty client: the header at `height` after `held`, judged at a clock whose future-drift
  // bound is `limit`.
  function Check(r: Rules, limit: int, held: seq<Header>, height: int, h: Header): Option<Fault>
    requires held != []
  {
    var window, parent := Last(held, LWMA_WINDOW), held[|held| - 1];
    if h.prev != r.hash(parent) then Some(Broken)
    else if h.time < parent.time + MIN_BLOCK_SPACING_SECS then Some(Broken)
    else if h.time <= r.mtp(window) then Some(Broken)
    else if h.time > limit then Some(Clock)
    else if h.bits != r.bits(window, height) then Some(Broken)
    else if !r.pow(h) then Some(Broken)
    else if height in r.checkpoints && r.checkpoints[height] != r.hash(h) then Some(PinMismatch)
    else None
  }

  // A header is taken exactly when it links to the last held one, comes at least 60 seconds after it and after the median of
  // the last 45, not past the drift bound, with the difficulty required, its proof of work, and the hash pinned at its
  // height, if one is; the clock is blamed only when the rest of the time rules hold, the pin only when all else does.
  lemma CheckIff(r: Rules, limit: int, held: seq<Header>, height: int, h: Header)
    requires held != []
    ensures var window, parent := held[if |held| > 45 then |held| - 45 else 0..], held[|held| - 1];
      var timed := h.prev == r.hash(parent) && h.time - parent.time >= 60 && h.time > r.mtp(window);
      var sound := h.bits == r.bits(window, height) && r.pow(h);
      var pinned := height in r.checkpoints ==> r.checkpoints[height] == r.hash(h);
      && (Check(r, limit, held, height, h).None? <==> timed && h.time <= limit && sound && pinned)
      && (Check(r, limit, held, height, h) == Some(Clock) <==> timed && h.time > limit)
      && (Check(r, limit, held, height, h) == Some(PinMismatch) <==> timed && h.time <= limit && sound && !pinned)
  {
    assert held[0..] == held;
  }

  // The headers a client based at `base` holds after ingesting `feed` in order, and the fault that stopped it.
  function Ingest(r: Rules, limit: int, base: int, held: seq<Header>, feed: seq<Header>): (seq<Header>, Option<Fault>)
    requires held != []
    decreases |feed|
  {
    if feed == [] then (held, None)
    else
      var f := Check(r, limit, held, base + |held|, feed[0]);
      if f.Some? then (held, f) else Ingest(r, limit, base, held + [feed[0]], feed[1..])
  }

  class LightClient {
    const rules: Rules
    const base: int
    var chain: seq<Header>

    constructor (rules: Rules, base: int, seed: seq<Header>)
      ensures this.rules == rules && this.base == base && chain == seed
    {
      this.rules, this.base, chain := rules, base, seed;
    }

    function Tip(): int
      reads this
    {
      base + |chain| - 1
    }

    // Ingests the served headers in order and stops at the first that fails.
    method IngestAll(feed: seq<Header>, limit: int) returns (fault: Option<Fault>)
      requires chain != []
      modifies this
      ensures (chain, fault) == Ingest(rules, limit, base, old(chain), feed)
    {
      var i := 0;
      fault := None;
      while i < |feed|
        invariant 0 <= i <= |feed| && chain != [] && fault == None
        invariant Ingest(rules, limit, base, chain, feed[i..]) == Ingest(rules, limit, base, old(chain), feed)
      {
        fault := Check(rules, limit, chain, base + |chain|, feed[i]);
        if fault.Some? { return; }
        chain := chain + [feed[i]];
        assert feed[i..][1..] == feed[i + 1..];
        i := i + 1;
      }
    }
  }

  lemma {:induction false} IngestGrows(r: Rules, limit: int, base: int, held: seq<Header>, feed: seq<Header>)
    requires held != []
    ensures var (got, f) := Ingest(r, limit, base, held, feed);
      && |held| <= |got| <= |held| + |feed|
      && got == held + feed[..|got| - |held|]
      && (f.None? <==> |got| == |held| + |feed|)
    decreases |feed|
  {
    if feed != [] && Check(r, limit, held, base + |held|, feed[0]).None? {
      IngestGrows(r, limit, base, held + [feed[0]], feed[1..]);
    }
  }

  lemma {:induction false} IngestLinks(r: Rules, limit: int, base: int, held: seq<Header>, feed: seq<Header>, prev: Digest)
    requires held != [] && Linked(held, prev, r.hash)
    ensures Linked(Ingest(r, limit, base, held, feed).0, prev, r.hash)
    decreases |feed|
  {
    if feed != [] && Check(r, limit, held, base + |held|, feed[0]).None? {
      assert (held + [feed[0]])[..|held|] == held;
      IngestLinks(r, limit, base, held + [feed[0]], feed[1..], prev);
    }
  }

  lemma {:induction false} IngestSplit(r: Rules, limit: int, base: int, held: seq<Header>, a: seq<Header>, b: seq<Header>)
    requires held != []
    requires Ingest(r, limit, base, held, a) == (held + a, None)
    ensures Ingest(r, limit, base, held, a + b) == Ingest(r, limit, base, held + a, b)
    decreases |a|
  {
    if a == [] {
      assert a + b == b && held + a == held;
    } else {
      IngestGrows(r, limit, base, held, a);
      assert (a + b)[1..] == a[1..] + b && held + a == held + [a[0]] + a[1..];
      IngestSplit(r, limit, base, held + [a[0]], a[1..], b);
    }
  }

  // A header is judged on the window below it alone, so a client holding a full window decides as the longer one.
  lemma {:induction false} IngestShift(r: Rules, limit: int, base: int, pre: seq<Header>, held: seq<Header>, feed: seq<Header>)
    requires |held| >= LWMA_WINDOW
    ensures var long := Ingest(r, limit, base, pre + held, feed);
      var short := Ingest(r, limit, base + |pre|, held, feed);
      long == (pre + short.0, short.1)
    decreases |feed|
  {
    assert Last(pre + held, LWMA_WINDOW) == Last(held, LWMA_WINDOW);
    if feed != [] && Check(r, limit, held, base + |pre| + |held|, feed[0]).None? {
      assert pre + held + [feed[0]] == pre + (held + [feed[0]]);
      IngestShift(r, limit, base, pre, held + [feed[0]], feed[1..]);
    }
  }

  ghost predicate InTime(rs: seq<Header>, limit: int) { forall h :: h in rs ==> h.time <= limit }

  // Only the future-drift bound depends on when a header is judged.
  lemma {:induction false} ClockOnly(r: Rules, earlier: int, limit: int, base: int, held: seq<Header>, feed: seq<Header>)
    requires held != []
    requires Ingest(r, earlier, base, held, feed) == (held + feed, None)
    ensures Ingest(r, limit, base, held, feed).1.None? <==> InTime(feed, limit)
    decreases |feed|
  {
    if feed != [] {
      IngestGrows(r, earlier, base, held, feed);
      assert held + feed == held + [feed[0]] + feed[1..];
      assert feed == [feed[0]] + feed[1..];
      assert Check(r, earlier, held, base + |held|, feed[0]).None?;
      if feed[0].time <= limit {
        ClockOnly(r, earlier, limit, base, held + [feed[0]], feed[1..]);
      } else {
        assert feed[0] in feed;
      }
    }
  }

  // ---- Work ----

  function Work(r: Rules, rs: seq<Header>): nat {
    if rs == [] then 0 else Work(r, rs[..|rs| - 1]) + r.work(rs[|rs| - 1].bits)
  }

  function SatAdd(a: nat, w: nat): nat { if a + w > MAX_U128 then MAX_U128 else a + w }

  // The cumulative work a client records at its last header: each step saturates.
  function ChainWork(r: Rules, rs: seq<Header>): nat {
    if rs == [] then 0 else SatAdd(ChainWork(r, rs[..|rs| - 1]), r.work(rs[|rs| - 1].bits))
  }

  lemma {:induction false} ChainWorkIsWork(r: Rules, rs: seq<Header>)
    ensures ChainWork(r, rs) == Min(Work(r, rs), MAX_U128)
  {
    if rs != [] { ChainWorkIsWork(r, rs[..|rs| - 1]); }
  }

  lemma {:induction false} WorkConcat(r: Rules, a: seq<Header>, b: seq<Header>)
    ensures Work(r, a + b) == Work(r, a) + Work(r, b)
  {
    if b == [] {
      assert a + b == a;
    } else {
      assert (a + b)[..|a + b| - 1] == a + b[..|b| - 1];
      WorkConcat(r, a, b[..|b| - 1]);
    }
  }

  // ---- The two restores ----

  // Heights lo..hi out of the anchor's seed records followed by the stored suffix, as the source cuts them.
  function SeedAndSuffix(seed: seq<Header>, suffix: seq<Header>, newest: int, lo: int, hi: int): seq<Header>
    requires |seed| == SEED
    requires newest - SEED + 1 <= lo <= hi <= newest + |suffix|
  {
    var from, to := lo - (newest - SEED + 1), hi - (newest - SEED + 1) + 1;
    seed[Min(from, SEED)..Min(to, SEED)] + suffix[Max(0, from - SEED)..Max(0, to - SEED)]
  }

  lemma SeedAndSuffixIsSlice(seed: seq<Header>, suffix: seq<Header>, newest: int, lo: int, hi: int)
    requires |seed| == SEED && newest - SEED + 1 <= lo <= hi <= newest + |suffix|
    ensures var from := lo - (newest - SEED + 1);
      SeedAndSuffix(seed, suffix, newest, lo, hi) == (seed + suffix)[from..from + (hi - lo + 1)]
  {
  }

  // The time rules re-run on one walked record: seed a client on the window below it, ingest it with every check.
  // `records` are its SEED predecessors and itself.
  method LatestTimeHolds(r: Rules, limit: int, records: seq<Header>, firstHeight: int) returns (ok: bool)
    requires |records| == SEED + 1
    ensures ok <==>
      && SeedHolds(r, records[..SEED], firstHeight)
      && Check(r, limit, records[..SEED], firstHeight + SEED, records[SEED]).None?
    ensures ok ==> forall j :: 0 <= j <= SEED ==>
      r.pow(records[j]) && (firstHeight + j in r.checkpoints ==> r.checkpoints[firstHeight + j] == r.hash(records[j]))
  {
    ghost var start := records[0].prev;
    for i := 0 to SEED
      invariant Linked(records[..i], start, r.hash)
      invariant forall j :: 0 <= j < i ==> SeedRecordHolds(r, records[j], firstHeight + j)
    {
      assert records[..SEED][..i + 1] == records[..i + 1] && records[..i + 1][..i] == records[..i];
      if i > 0 && records[i].prev != r.hash(records[i - 1]) {
        if Linked(records[..SEED], start, r.hash) { LinkedTake(records[..SEED], i + 1, start, r.hash); }
        return false;
      }
      if !SeedRecordHolds(r, records[i], firstHeight + i) {
        assert records[..SEED][i] == records[i];
        return false;
      }
    }
    var f := Check(r, limit, records[..SEED], firstHeight + SEED, records[SEED]);
    assert forall j :: 0 <= j < SEED ==> records[..SEED][j] == records[j];
    ok := f.None?;
  }

  predicate SeedRecordHolds(r: Rules, h: Header, height: int) {
    r.pow(h) && (height in r.checkpoints ==> r.checkpoints[height] == r.hash(h))
  }

  // What seedTrusted requires of a seed, its last hash aside.
  ghost predicate SeedHolds(r: Rules, seed: seq<Header>, firstHeight: int) {
    && seed != []
    && Linked(seed, seed[0].prev, r.hash)
    && forall j :: 0 <= j < |seed| ==> SeedRecordHolds(r, seed[j], firstHeight + j)
  }

  // A client seeded at the anchor accepted all of `seen` at a clock with drift bound `limit`.
  ghost predicate AcceptedFrom(r: Rules, limit: int, newest: int, seed: seq<Header>, seen: seq<Header>)
    requires seed != []
  {
    Ingest(r, limit, newest - SEED + 1, seed, seen) == (seed + seen, None)
  }

  // `seen` is the chain a light client verified from the anchor earlier in the session and pinned.
  ghost predicate Vouched(r: Rules, newest: int, seed: seq<Header>, pin: Pin, seen: seq<Header>) {
    && |seed| == SEED && SeedHolds(r, seed, newest - SEED + 1)
    && newest in r.checkpoints && r.hash(seed[SEED - 1]) == r.checkpoints[newest]
    && SEED <= |seen| == pin.tip - newest
    && r.hash(seen[|seen| - 1]) == pin.hash
    && exists earlier :: AcceptedFrom(r, earlier, newest, seed, seen)
  }

  // Records that walk to the pin are the records the pin was taken on.
  lemma WalkFindsTheSeenChain(r: Rules, newest: int, seed: seq<Header>, pin: Pin, seen: seq<Header>, suffix: seq<Header>)
    requires Injective(r.hash)
    requires Vouched(r, newest, seed, pin, seen) && Walks(suffix, newest, pin, r.checkpoints, r.hash)
    ensures suffix[..pin.tip - newest] == seen
  {
    hide Injective;
    var earlier :| AcceptedFrom(r, earlier, newest, seed, seen);
    IngestLinks(r, earlier, newest - SEED + 1, seed, seen, seed[0].prev);
    LinkedConcat(seed, seen, seed[0].prev, r.hash);
    LastHashFixesChain(suffix[..pin.tip - newest], seen, r.checkpoints[newest], r.checkpoints[newest], r.hash);
  }

  lemma HoldsSnoc(r: Rules, limit: int, base: int, held: seq<Header>, h: Header)
    requires SeedHolds(r, held, base) && Check(r, limit, held, base + |held|, h).None?
    ensures SeedHolds(r, held + [h], base)
  {
    assert (held + [h])[..|held|] == held;
  }

  lemma {:induction false} IngestedHold(r: Rules, limit: int, base: int, held: seq<Header>, feed: seq<Header>)
    requires SeedHolds(r, held, base)
    requires Ingest(r, limit, base, held, feed) == (held + feed, None)
    ensures SeedHolds(r, held + feed, base)
    decreases |feed|
  {
    if feed == [] {
      assert held + feed == held;
    } else {
      IngestGrows(r, limit, base, held, feed);
      HoldsSnoc(r, limit, base, held, feed[0]);
      assert held + feed == held + [feed[0]] + feed[1..];
      IngestedHold(r, limit, base, held + [feed[0]], feed[1..]);
    }
  }

  lemma {:induction false} IngestedAt(r: Rules, limit: int, base: int, held: seq<Header>, feed: seq<Header>, i: nat)
    requires held != [] && i < |feed|
    requires Ingest(r, limit, base, held, feed) == (held + feed, None)
    ensures Check(r, limit, held + feed[..i], base + |held| + i, feed[i]).None?
    decreases i
  {
    IngestGrows(r, limit, base, held, feed);
    if i == 0 {
      assert held + feed[..0] == held;
    } else {
      assert held + feed == held + [feed[0]] + feed[1..];
      IngestedAt(r, limit, base, held + [feed[0]], feed[1..], i - 1);
      assert held + feed[..i] == held + [feed[0]] + feed[1..][..i - 1];
    }
  }

  lemma SliceHolds(r: Rules, all: seq<Header>, base: int, i: nat, j: nat)
    requires SeedHolds(r, all, base) && i < j <= |all|
    ensures SeedHolds(r, all[i..j], base + i)
  {
    hide Linked;
    var s := all[i..j];
    LinkedTake(all, j, all[0].prev, r.hash);
    LinkedTake(all[..j], i, all[0].prev, r.hash);
    assert all[..j][i..] == s;
    LinkedAt(s, 0, EndHash(all[..i], all[0].prev, r.hash), r.hash) by { assert all[..j][..i] == all[..i]; }
    assert forall k :: 0 <= k < |s| ==> s[k] == all[i + k];
  }

  // A header accepted at one clock is accepted at another, on any suffix of its window, exactly when it meets the bound.
  lemma SameVerdict(r: Rules, earlier: int, limit: int, held: seq<Header>, tail: seq<Header>, height: int, h: Header)
    requires |tail| >= LWMA_WINDOW && |held| >= |tail| && held[|held| - |tail|..] == tail
    requires Check(r, earlier, held, height, h).None?
    ensures Check(r, limit, tail, height, h).None? <==> h.time <= limit
  {
    assert Last(held, LWMA_WINDOW) == Last(tail, LWMA_WINDOW);
  }

  lemma LatestBounds(rs: seq<Header>, limit: int)
    requires rs != []
    ensures 0 <= Latest(rs).0 < |rs|
    ensures rs[Latest(rs).0].time <= limit <==> InTime(rs, limit)
  {
    LatestIsFirstMaximum(rs);
    assert rs[Latest(rs).0] in rs;
  }

  // The re-run on one walked record of a vouched chain finds a sound seed and fails on nothing but the clock.
  lemma RerunDecidesTime(r: Rules, limit: int, newest: int, seed: seq<Header>, pin: Pin, seen: seq<Header>, i: nat)
    requires Vouched(r, newest, seed, pin, seen) && i < |seen|
    ensures var before := (seed + seen)[i..i + SEED];
      && SeedHolds(r, before, newest + 1 + i - SEED)
      && (Check(r, limit, before, newest + 1 + i, seen[i]).None? <==> seen[i].time <= limit)
  {
    var base, all := newest - SEED + 1, seed + seen;
    var earlier :| AcceptedFrom(r, earlier, newest, seed, seen);
    IngestedHold(r, earlier, base, seed, seen);
    SliceHolds(r, all, base, i, i + SEED);
    IngestedAt(r, earlier, base, seed, seen, i);
    var held, tail := seed + seen[..i], all[i..i + SEED];
    assert held == all[..i + SEED];
    assert held[|held| - |tail|..] == tail;
    SameVerdict(r, earlier, limit, held, tail, newest + 1 + i, seen[i]);
  }

  // The re-run on the latest walked record passes exactly when every walked record passes today's drift bound.
  lemma LatestDecidesAll(r: Rules, limit: int, newest: int, seed: seq<Header>, pin: Pin, seen: seq<Header>, i: int)
    requires Vouched(r, newest, seed, pin, seen) && i == Latest(seen).0
    ensures 0 <= i < |seen|
    ensures SeedHolds(r, (seed + seen)[i..i + SEED], newest + 1 + i - SEED)
    ensures Check(r, limit, (seed + seen)[i..i + SEED], newest + 1 + i, seen[i]).None? <==> InTime(seen, limit)
  {
    assert |seen| > 0;
    LatestBounds(seen, limit);
    RerunDecidesTime(r, limit, newest, seed, pin, seen, i);
  }

  lemma PinnedIsAnchored(r: Rules, limit: int, newest: int, seed: seq<Header>, pin: Pin, seen: seq<Header>, rest: seq<Header>)
    requires Vouched(r, newest, seed, pin, seen)
    requires InTime(seen, limit)
    ensures var cut := |seen| - SEED;
      var anchored := Ingest(r, limit, newest - SEED + 1, seed, seen + rest);
      var pinned := Ingest(r, limit, pin.tip - SEED + 1, seen[cut..], rest);
      anchored == (seed + seen[..cut] + pinned.0, pinned.1)
  {
    var base, cut := newest - SEED + 1, |seen| - SEED;
    var earlier :| AcceptedFrom(r, earlier, newest, seed, seen);
    ClockOnly(r, earlier, limit, base, seed, seen);
    IngestGrows(r, limit, base, seed, seen);
    assert seen[..|seen|] == seen;
    IngestSplit(r, limit, base, seed, seen, rest);
    var pre, held := seed + seen[..cut], seen[cut..];
    assert seed + seen == pre + held;
    IngestShift(r, limit, base, pre, held, rest);
  }

  lemma RerunRecords(seed: seq<Header>, suffix: seq<Header>, seen: seq<Header>, newest: int, i: nat)
    requires |seed| == SEED && i < |seen| <= |suffix| && suffix[..|seen|] == seen
    ensures SeedAndSuffix(seed, suffix, newest, newest + 1 + i - SEED, newest + 1 + i)[..SEED] == (seed + seen)[i..i + SEED]
    ensures suffix[i] == seen[i]
  {
    SeedAndSuffixIsSlice(seed, suffix, newest, newest + 1 + i - SEED, newest + 1 + i);
    assert suffix == seen + suffix[|seen|..];
  }

  // The record with the latest timestamp of the first n stored ones passes the re-run.
  ghost predicate LatestReruns(r: Rules, limit: int, newest: int, seed: seq<Header>, suffix: seq<Header>, n: nat)
    requires |seed| == SEED && n <= |suffix|
  {
    var i := Latest(suffix[..n]).0;
    0 <= i < n &&
    Check(r, limit, SeedAndSuffix(seed, suffix, newest, newest + 1 + i - SEED, newest + 1 + i)[..SEED], newest + 1 + i, suffix[i]).None?
  }

  lemma RerunMeansInTime(r: Rules, limit: int, newest: int, seed: seq<Header>, pin: Pin, seen: seq<Header>, suffix: seq<Header>)
    requires Vouched(r, newest, seed, pin, seen) && |seen| <= |suffix| && suffix[..|seen|] == seen
    requires LatestReruns(r, limit, newest, seed, suffix, |seen|)
    ensures InTime(seen, limit)
  {
    var i := Latest(seen).0;
    LatestDecidesAll(r, limit, newest, seed, pin, seen, i);
    RerunRecords(seed, suffix, seen, newest, i);
  }

  // Restoring from the pin is restoring from the anchor: when the stored suffix walks to a pin this session took, and
  // the latest walked record passes the clock now, a client seeded at the pin over the walked records holds exactly
  // what a client seeded at the anchor would hold after re-checking every stored header, and stops at the same fault.
  lemma PinRestoreIsAnchorRestore(r: Rules, limit: int, newest: int, seed: seq<Header>, pin: Pin, seen: seq<Header>, suffix: seq<Header>)
    requires Injective(r.hash)
    requires Vouched(r, newest, seed, pin, seen) && Walks(suffix, newest, pin, r.checkpoints, r.hash)
    requires LatestReruns(r, limit, newest, seed, suffix, pin.tip - newest)
    ensures SEED <= |seen| == pin.tip - newest <= |suffix| && seen == suffix[..|seen|]
    ensures var cut, rest := |seen| - SEED, suffix[|seen|..];
      var anchored := Ingest(r, limit, newest - SEED + 1, seed, suffix);
      var pinned := Ingest(r, limit, pin.tip - SEED + 1, seen[cut..], rest);
      anchored == (seed + seen[..cut] + pinned.0, pinned.1)
  {
    hide Injective, Ingest, Linked, SeedHolds, InTime, Check;
    WalkFindsTheSeenChain(r, newest, seed, pin, seen, suffix);
    RerunMeansInTime(r, limit, newest, seed, pin, seen, suffix);
    assert suffix == seen + suffix[|seen|..];
    PinnedIsAnchored(r, limit, newest, seed, pin, seen, suffix[|seen|..]);
  }
}
