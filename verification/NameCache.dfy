// The confirm-time cache: the sorted (txid, height) pairs of the records an address was proven from, the header hash at
// each of their heights, and the check that lets a Confirm take the proof of its Review.

module NameCache {
  import opened Base
  import opened Names
  import Blocks

  const HINTSET_TTL_MS: int := 120_000
  const EPOCH_LEN: int := 30
  const V25_HEIGHT: int := 46_440

  // ---- Sorting ----

  predicate TextLe(a: string, b: string) { a == [] || (b != [] && (a[0] < b[0] || (a[0] == b[0] && TextLe(a[1..], b[1..])))) }

  predicate PairLe(a: HintPair, b: HintPair) { if a.txid == b.txid then a.height <= b.height else TextLe(a.txid, b.txid) }

  // The hints that name something: a txid, and a whole height.
  function ValidPairs(hints: seq<Hint>): seq<HintPair> {
    if hints == [] then []
    else
      var before, h := ValidPairs(hints[..|hints| - 1]), hints[|hints| - 1];
      if h.txid != [] && Placed(h) then before + [PairOf(h)] else before
  }

  lemma {:induction false} ValidPairsAre(hints: seq<Hint>, p: HintPair)
    ensures p in ValidPairs(hints) <==>
      exists h :: h in hints && h.txid != [] && h.height.Some? && h.height.value >= 0 && p == HintPair(LowerCase(h.txid), h.height.value)
  {
    if hints != [] {
      ValidPairsAre(hints[..|hints| - 1], p);
      assert forall h :: h in hints <==> h in hints[..|hints| - 1] || h == hints[|hints| - 1];
    }
  }

  function Insert(p: HintPair, s: seq<HintPair>): seq<HintPair> {
    if s == [] || PairLe(p, s[0]) then [p] + s else [s[0]] + Insert(p, s[1..])
  }

  function SortOf(s: seq<HintPair>): seq<HintPair> { if s == [] then [] else Insert(s[0], SortOf(s[1..])) }

  function SortHintPairs(hints: seq<Hint>): seq<HintPair> { SortOf(ValidPairs(hints)) }

  ghost predicate Sorted(s: seq<HintPair>) { s == [] || (Sorted(s[1..]) && AllAbove(s[0], s[1..])) }

  ghost predicate AllAbove(p: HintPair, s: seq<HintPair>) { forall q :: q in s ==> PairLe(p, q) }

  lemma {:induction false} TextTotal(a: string, b: string)
    ensures TextLe(a, b) || TextLe(b, a)
    ensures TextLe(a, b) && TextLe(b, a) ==> a == b
  {
    if a != [] && b != [] {
      TextTotal(a[1..], b[1..]);
      assert a == [a[0]] + a[1..] && b == [b[0]] + b[1..];
    }
  }

  lemma {:induction false} TextTrans(a: string, b: string, c: string)
    requires TextLe(a, b) && TextLe(b, c)
    ensures TextLe(a, c)
  {
    if a != [] && a[0] == b[0] && b[0] == c[0] { TextTrans(a[1..], b[1..], c[1..]); }
  }

  lemma PairOrder(a: HintPair, b: HintPair)
    ensures PairLe(a, b) || PairLe(b, a)
    ensures PairLe(a, b) && PairLe(b, a) ==> a == b
  {
    TextTotal(a.txid, b.txid);
  }

  lemma PairTrans(a: HintPair, b: HintPair, c: HintPair)
    requires PairLe(a, b) && PairLe(b, c)
    ensures PairLe(a, c)
  {
    if a.txid != b.txid && b.txid != c.txid {
      TextTrans(a.txid, b.txid, c.txid);
      TextTotal(a.txid, b.txid);
    }
  }

  lemma Tail(s: seq<HintPair>)
    requires s != []
    ensures multiset(s) == multiset{s[0]} + multiset(s[1..]) && multiset(s[1..]) == multiset(s) - multiset{s[0]}
  {
    assert s == [s[0]] + s[1..];
  }

  lemma AboveNone(p: HintPair)
    ensures AllAbove(p, []) && Sorted([])
  {
  }

  lemma Above(p: HintPair, x: HintPair, s: seq<HintPair>)
    requires PairLe(p, x) && AllAbove(x, s)
    ensures AllAbove(p, s)
  {
    forall q | q in s ensures PairLe(p, q) { PairTrans(p, x, q); }
  }

  lemma AboveIn(p: HintPair, s: seq<HintPair>, t: seq<HintPair>, x: HintPair)
    requires AllAbove(p, s) && PairLe(p, x) && multiset(t) == multiset(s) + multiset{x}
    ensures AllAbove(p, t)
  {
    forall q | q in t ensures PairLe(p, q) { assert q in multiset(t); }
  }

  lemma {:induction false} InsertSorts(p: HintPair, s: seq<HintPair>)
    requires Sorted(s)
    ensures Sorted(Insert(p, s)) && multiset(Insert(p, s)) == multiset(s) + multiset{p}
  {
    hide PairLe, AllAbove;
    if s == [] {
      assert [p] + s == [p] && [p][1..] == [];
      AboveNone(p);
    } else if PairLe(p, s[0]) {
      assert ([p] + s)[1..] == s;
      Above(p, s[0], s[1..]);
      AboveCons(p, s);
      Tail([p] + s);
    } else {
      PairOrder(p, s[0]);
      InsertSorts(p, s[1..]);
      var rest := Insert(p, s[1..]);
      AboveIn(s[0], s[1..], rest, p);
      assert ([s[0]] + rest)[1..] == rest;
      Tail(s);
      Tail([s[0]] + rest);
    }
  }

  lemma AboveCons(p: HintPair, s: seq<HintPair>)
    requires s != [] && PairLe(p, s[0]) && AllAbove(p, s[1..])
    ensures AllAbove(p, s)
  {
    forall q | q in s ensures PairLe(p, q) { if q != s[0] { assert q in s[1..]; } }
  }

  lemma {:induction false} SortSorts(s: seq<HintPair>)
    ensures Sorted(SortOf(s)) && multiset(SortOf(s)) == multiset(s)
  {
    hide Insert, PairLe, AllAbove;
    if s != [] {
      SortSorts(s[1..]);
      InsertSorts(s[0], SortOf(s[1..]));
      Tail(s);
    }
  }

  lemma LeastFirst(a: seq<HintPair>, b: seq<HintPair>)
    requires a != [] && b != [] && AllAbove(a[0], a[1..]) && multiset(a) == multiset(b)
    ensures PairLe(a[0], b[0])
  {
    PairOrder(a[0], a[0]);
    AboveCons(a[0], a);
    assert b[0] in multiset(b) && b[0] in multiset(a);
    assert b[0] in a;
  }

  lemma {:induction false} SortedIsUnique(a: seq<HintPair>, b: seq<HintPair>)
    requires Sorted(a) && Sorted(b) && multiset(a) == multiset(b)
    ensures a == b
  {
    hide PairLe, AllAbove;
    assert |a| == |multiset(a)| == |multiset(b)| == |b|;
    if a != [] {
      LeastFirst(a, b);
      LeastFirst(b, a);
      PairOrder(a[0], b[0]);
      Tail(a);
      Tail(b);
      SortedIsUnique(a[1..], b[1..]);
      assert a == [a[0]] + a[1..] && b == [b[0]] + b[1..];
    }
  }

  // Two hint sets sort to the same list exactly when they hold the same valid pairs.
  lemma {:induction false} SameListSamePairs(a: seq<Hint>, b: seq<Hint>)
    ensures SortHintPairs(a) == SortHintPairs(b) <==> multiset(ValidPairs(a)) == multiset(ValidPairs(b))
  {
    SortSorts(ValidPairs(a));
    SortSorts(ValidPairs(b));
    if multiset(ValidPairs(a)) == multiset(ValidPairs(b)) { SortedIsUnique(SortHintPairs(a), SortHintPairs(b)); }
  }

  // ---- The skip check ----

  datatype Entry = Entry(pairs: seq<HintPair>, hashes: map<int, string>, addr: string, ts: int, epoch: int)

  datatype Claim = Claim(addr: Option<string>, lapsed: bool)

  // The header hash at a height, or None when it cannot be read.
  type HashAt = int -> Option<string>

  predicate SameHash(live: Option<string>, hashes: map<int, string>, h: int) {
    live.Some? && live.value != [] && h in hashes && hashes[h] != [] && LowerCase(live.value) == LowerCase(hashes[h])
  }

  predicate Skips(cache: Entry, pairs: seq<HintPair>, claims: seq<Claim>, now: int, epoch: Option<int>, hashAt: HashAt) {
    && epoch == Some(cache.epoch) && now - cache.ts <= HINTSET_TTL_MS
    && cache.pairs == pairs
    && (forall c :: c in claims ==> !c.lapsed)
    && (forall p :: p in cache.pairs ==> SameHash(hashAt(p.height), cache.hashes, p.height))
  }

  predicate Agrees(c: Claim, addr: string) { c.addr.Some? && LowerCase(c.addr.value) == LowerCase(addr) }

  method HintPairsEqual(a: seq<HintPair>, b: seq<HintPair>) returns (same: bool)
    ensures same <==> a == b
  {
    if |a| != |b| { return false; }
    for i := 0 to |a|
      invariant a[..i] == b[..i]
    {
      if a[i].txid != b[i].txid || a[i].height != b[i].height { return false; }
    }
    assert a[..|a|] == a && b[..|b|] == b;
    same := true;
  }

  method ClaimsMeta(claims: seq<Claim>, proven: string, flagged: bool) returns (disagree: bool, anyLapsed: bool)
    ensures disagree <==> flagged || exists c :: c in claims && !Agrees(c, proven)
    ensures anyLapsed <==> exists c :: c in claims && c.lapsed
  {
    var disagreeing := 0;
    anyLapsed := false;
    for i := 0 to |claims|
      invariant disagreeing >= 0
      invariant disagreeing > 0 <==> exists c :: c in claims[..i] && !Agrees(c, proven)
      invariant anyLapsed <==> exists c :: c in claims[..i] && c.lapsed
    {
      assert claims[..i + 1] == claims[..i] + [claims[i]];
      assert claims[i] in claims[..i + 1];
      if claims[i].lapsed { anyLapsed := true; }
      if !Agrees(claims[i], proven) { disagreeing := disagreeing + 1; }
    }
    assert claims[..|claims|] == claims;
    disagree := disagreeing > 0 || flagged;
  }

  // `flagged` is the fetch's own disagreement: a height conflict, a missing name, or a hint below the floor.
  method EvaluateHintSetSkip(cache: Option<Entry>, pairs: seq<HintPair>, claims: seq<Claim>, flagged: bool, now: int, epoch: Option<int>, hashAt: Option<HashAt>)
    returns (skip: bool, disagree: bool, sources: nat)
    ensures skip <==> cache.Some? && hashAt.Some? && Skips(cache.value, pairs, claims, now, epoch, hashAt.value)
    ensures skip ==> sources == |claims| && (disagree <==> flagged || exists c :: c in claims && !Agrees(c, cache.value.addr))
  {
    skip, disagree, sources := false, false, 0;
    if cache.None? || epoch.None? { return; }
    var e := cache.value;
    if now - e.ts > HINTSET_TTL_MS || epoch.value != e.epoch { return; }
    var same := HintPairsEqual(e.pairs, pairs);
    if !same { return; }
    var differs, anyLapsed := ClaimsMeta(claims, e.addr, flagged);
    if anyLapsed || hashAt.None? { return; }
    var seen: set<int> := {};
    for i := 0 to |e.pairs|
      invariant forall p :: p in e.pairs[..i] ==> p.height in seen
      invariant forall h :: h in seen ==> SameHash(hashAt.value(h), e.hashes, h)
    {
      assert e.pairs[..i + 1] == e.pairs[..i] + [e.pairs[i]];
      var h := e.pairs[i].height;
      if h !in seen {
        if !SameHash(hashAt.value(h), e.hashes, h) { assert e.pairs[i] in e.pairs; return; }
        seen := seen + {h};
      }
    }
    assert e.pairs[..|e.pairs|] == e.pairs;
    skip, disagree, sources := true, differs, |claims|;
  }

  // ---- What a skip means ----

  // A chain as its headers show it: the body mined at each height and the hash of its header.
  datatype View = View(chain: int -> Blocks.Body, hash: HashAt)

  // One header hash, one header: views that show the same hash at a height were mined from the same list of txids there.
  ghost predicate HashFixes(v: View, w: View) {
    forall h :: v.hash(h).Some? && w.hash(h).Some? && LowerCase(v.hash(h).value) == LowerCase(w.hash(h).value)
      ==> Blocks.Ids(v.chain(h)) == Blocks.Ids(w.chain(h))
  }

  // The entry's pairs are those of the hints its address was proven from on a view.
  ghost predicate ProvenOn(r: Rules, name: string, e: Entry, hints: seq<Hint>, v: View, tip: int) {
    && PairsOf(hints).Some? && e.pairs == SortHintPairs(hints)
    && Backed(r, v.chain, name, PairsOf(hints).value, tip, e.addr, false)
  }

  // Its hashes are those a view shows at the pairs' heights.
  ghost predicate HashedOn(e: Entry, v: View) {
    forall p :: p in e.pairs ==>
      v.hash(p.height).Some? && v.hash(p.height).value != [] && p.height in e.hashes && e.hashes[p.height] == LowerCase(v.hash(p.height).value)
  }

  lemma SameViewSameEvent(r: Rules, v: View, w: View, p: HintPair)
    requires Blocks.Ids(v.chain(p.height)) == Blocks.Ids(w.chain(p.height))
    ensures MinedEvent(r, v.chain, p) == MinedEvent(r, w.chain, p)
  {
  }

  lemma {:induction false} SameViewSameEvidence(r: Rules, v: View, w: View, pairs: seq<HintPair>)
    requires forall p :: p in pairs ==> Blocks.Ids(v.chain(p.height)) == Blocks.Ids(w.chain(p.height))
    ensures Evidence(r, v.chain, pairs) == Evidence(r, w.chain, pairs)
  {
    hide MinedEvent;
    if pairs != [] {
      var init, p := pairs[..|pairs| - 1], pairs[|pairs| - 1];
      assert forall q :: q in init ==> q in pairs;
      SameViewSameEvidence(r, v, w, init);
      SameViewSameEvent(r, v, w, p);
    }
  }

  lemma LowerTwice(s: string)
    ensures LowerCase(LowerCase(s)) == LowerCase(s)
  {
  }

  // No hash is written as the empty text.
  ghost predicate NamesEveryHash(r: Rules) { forall id :: r.hex(id) != [] }

  lemma {:induction false} MinedIsValid(r: Rules, chain: int -> Blocks.Body, hints: seq<Hint>)
    requires NamesEveryHash(r) && PairsOf(hints).Some? && AllMined(r, chain, PairsOf(hints).value)
    ensures ValidPairs(hints) == PairsOf(hints).value
  {
    if hints != [] {
      var init, h := hints[..|hints| - 1], hints[|hints| - 1];
      var before := PairsOf(init).value;
      assert forall p :: p in before ==> p in before + [PairOf(h)];
      MinedIsValid(r, chain, init);
      assert PairOf(h) in before + [PairOf(h)] && MinedEvent(r, chain, PairOf(h)).Some?;
    }
  }

  // A skip passes only if the hints served now name exactly the pairs that were cached, and the chain holds at their
  // heights what it held when the hashes were read.
  lemma {:induction false} SkipMeansUnmoved(r: Rules, e: Entry, claims: seq<Claim>, now: int, epoch: Option<int>,
                                            reviewed: seq<Hint>, u: View, served: seq<Hint>, w: View)
    requires e.pairs == SortHintPairs(reviewed) && HashedOn(e, u) && HashFixes(u, w)
    requires Skips(e, SortHintPairs(served), claims, now, epoch, w.hash)
    ensures multiset(ValidPairs(served)) == multiset(ValidPairs(reviewed))
    ensures forall p :: p in ValidPairs(reviewed) ==> MinedEvent(r, w.chain, p) == MinedEvent(r, u.chain, p)
    ensures Evidence(r, w.chain, ValidPairs(served)) == Evidence(r, u.chain, ValidPairs(reviewed))
  {
    hide Evidence, MinedEvent;
    var pairs := ValidPairs(reviewed);
    SameListSamePairs(served, reviewed);
    SortSorts(pairs);
    forall p | p in pairs
      ensures Blocks.Ids(u.chain(p.height)) == Blocks.Ids(w.chain(p.height)) && MinedEvent(r, w.chain, p) == MinedEvent(r, u.chain, p)
    {
      assert p in multiset(pairs) && p in e.pairs;
      LowerTwice(u.hash(p.height).value);
      SameViewSameEvent(r, u, w, p);
    }
    SameViewSameEvidence(r, u, w, pairs);
    EvidencePermutes(r, w.chain, ValidPairs(served), pairs);
  }

  // ---- When a skip is as good as a replay ----

  // What the vendored resolver does with the tip: past V25_HEIGHT a name that is not reserved stays the record it is at
  // every tip, but for its lease, which is read by the tip's epoch alone and once run out stays so.
  ghost predicate ByEpoch(r: Rules) { forall events, name, a, b :: KeepsTo(r, events, name, a, b) }

  ghost predicate KeepsTo(r: Rules, events: multiset<NameEvent>, name: string, a: int, b: int) {
    var before, after := r.resolve(events, a), r.resolve(events, b);
    a >= V25_HEIGHT && b >= V25_HEIGHT && name in before && !before[name].pending ==>
      && name in after && after[name] == before[name].(expired := after[name].expired)
      && (a / EPOCH_LEN <= b / EPOCH_LEN && before[name].expired ==> after[name].expired)
  }

  // The header hashes the replay was rooted in are still those read afterwards, at every height of a cached pair.
  ghost predicate Unmoved(e: Entry, v: View, u: View) {
    forall p :: p in e.pairs ==> v.hash(p.height).Some? && u.hash(p.height).Some? && LowerCase(v.hash(p.height).value) == LowerCase(u.hash(p.height).value)
  }

  // The lease epoch of the cached entry is not past the tip its address was proven at.
  predicate SameLease(e: Entry, proven: int) { e.epoch <= proven / EPOCH_LEN }

  lemma {:induction false} MovesOver(r: Rules, name: string, e: Entry, reviewed: seq<Hint>, v: View, a: int, u: View)
    requires NamesEveryHash(r) && ProvenOn(r, name, e, reviewed, v, a) && HashFixes(v, u) && Unmoved(e, v, u)
    ensures ValidPairs(reviewed) == PairsOf(reviewed).value
    ensures AllMined(r, u.chain, ValidPairs(reviewed))
    ensures Evidence(r, u.chain, ValidPairs(reviewed)) == Evidence(r, v.chain, ValidPairs(reviewed))
  {
    hide Evidence, MinedEvent, PairsOf;
    var pairs := ValidPairs(reviewed);
    MinedIsValid(r, v.chain, reviewed);
    SortSorts(pairs);
    forall p | p in pairs
      ensures Blocks.Ids(v.chain(p.height)) == Blocks.Ids(u.chain(p.height)) && MinedEvent(r, u.chain, p).Some?
    {
      assert p in multiset(pairs) && p in e.pairs;
      SameViewSameEvent(r, v, u, p);
    }
    SameViewSameEvidence(r, v, u, pairs);
  }

  lemma KeptToTip(r: Rules, chain: int -> Blocks.Body, name: string, pairs: seq<HintPair>, a: int, b: int, addr: string, viaFill: bool)
    requires ByEpoch(r) && a >= V25_HEIGHT && b >= V25_HEIGHT && b / EPOCH_LEN <= a / EPOCH_LEN
    requires Backed(r, chain, name, pairs, a, addr, viaFill)
    ensures Backed(r, chain, name, pairs, b, addr, viaFill)
  {
    hide Evidence, AllMined;
    assert KeepsTo(r, Evidence(r, chain, pairs), name, a, b) && KeepsTo(r, Evidence(r, chain, pairs), name, b, a);
  }

  // Under the two guards a skip is as good as a full replay at the Confirm: on the chain and at the tip of now, the
  // resolver's replay of the hints served now gives the cached address.
  lemma {:induction false} SkipIsBacked(r: Rules, name: string, e: Entry, claims: seq<Claim>, now: int, t: int,
                                        reviewed: seq<Hint>, v: View, a: int, u: View, served: seq<Hint>, w: View)
    requires NamesEveryHash(r) && ByEpoch(r) && a >= V25_HEIGHT && t >= V25_HEIGHT
    requires ProvenOn(r, name, e, reviewed, v, a) && HashedOn(e, u) && HashFixes(v, u) && HashFixes(u, w)
    requires Skips(e, SortHintPairs(served), claims, now, Some(t / EPOCH_LEN), w.hash)
    requires Unmoved(e, v, u) && SameLease(e, a)
    ensures Backed(r, w.chain, name, ValidPairs(served), t, e.addr, false)
  {
    hide Evidence, MinedEvent, PairsOf, HashedOn, HashFixes, ByEpoch, Unmoved, NamesEveryHash;
    SkipMeansUnmoved(r, e, claims, now, Some(t / EPOCH_LEN), reviewed, u, served, w);
    MovesOver(r, name, e, reviewed, v, a, u);
    assert Backed(r, w.chain, name, ValidPairs(served), a, e.addr, false) by {
      forall p | p in ValidPairs(served) ensures MinedEvent(r, w.chain, p).Some? {
        assert p in multiset(ValidPairs(served)) && p in multiset(ValidPairs(reviewed));
      }
    }
    KeptToTip(r, w.chain, name, ValidPairs(served), a, t, e.addr, false);
  }
}
