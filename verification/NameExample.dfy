// When a Confirm's skip is not backed: exactly when a header moved between the proof and the reading of its hash, or the
// tip of the cached epoch is an epoch past the one the address was proven at.

module NameExample {
  import opened Base
  import opened Transactions
  import opened Blocks
  import opened Names
  import opened NameCache
  import HoldExample

  // An entry proven on v at tip `proven`, its hashes read on u, and served again at tip `t` with the headers still u's: it
  // passes the check, and the chain of now does not back it.
  ghost predicate Unsafe(r: Names.Rules, name: string, e: Entry, hints: seq<Hint>, v: View, proven: int, u: View, t: int) {
    && NamesEveryHash(r) && ByEpoch(r) && HashFixes(v, u)
    && ProvenOn(r, name, e, hints, v, proven) && HashedOn(e, u) && e.pairs != []
    && Skips(e, SortHintPairs(hints), [], e.ts, Some(t / EPOCH_LEN), u.hash)
    && !Backed(r, u.chain, name, ValidPairs(hints), t, e.addr, false)
  }

  // Its records lie at these heights, the headers of the proof hash as `before` says and those read afterwards as `after`.
  ghost predicate Between(e: Entry, v: View, u: View, heights: set<int>, before: HashAt, after: HashAt) {
    v.hash == before && u.hash == after && forall p :: p in e.pairs ==> p.height in heights
  }

  ghost predicate UnsafeBetween(r: Names.Rules, name: string, e: Entry, hints: seq<Hint>, v: View, u: View,
                                heights: set<int>, before: HashAt, after: HashAt, proven: int, t: int) {
    Unsafe(r, name, e, hints, v, proven, u, t) && Between(e, v, u, heights, before, after)
  }

  predicate Readable(hash: HashAt, h: int) { hash(h).Some? && hash(h).value != [] }

  predicate Moved(before: HashAt, after: HashAt, h: int) {
    before(h).Some? && after(h).Some? && LowerCase(before(h).value) != LowerCase(after(h).value)
  }

  // ---- One name, one record ----

  const NAME := "alice"
  const TXID := "aa"

  function RecordTx(): Transaction { HoldExample.Spend(30, HoldExample.MINE, [], Propose([7], [], [30], 0)) }

  function RecordId(): Hash { Txid(RecordTx()) }

  function TheEvent(h: int): NameEvent { NameEvent(RecordId(), h, 0, HoldExample.MINE) }

  // The record sets an address other than its owner; its lease runs out with the epoch of `proven`.
  function Lease(proven: int, t: int): Names.Record { Names.Record("bob", Some("Carol"), t / EPOCH_LEN > proven / EPOCH_LEN, false, false) }

  ghost function ItsRules(h: int, proven: int): Names.Rules {
    Names.Rules((id: Hash) => if id == RecordId() then TXID else "bb",
                HoldExample.ItsRules().recover,
                (events: multiset<NameEvent>, t: int) => if TheEvent(h) in events then map[NAME := Lease(proven, t)] else map[])
  }

  function TheHints(h: int): seq<Hint> { [Hint(TXID, Some(h))] }

  function ThePair(h: int): HintPair { HintPair(TXID, h) }

  // The chain of the proof, and the one read afterwards, without the record if its header moved.
  function ProofView(h: int, before: HashAt): View { View(x => if x == h then [RecordTx()] else [], before) }

  function LaterView(h: int, before: HashAt, after: HashAt): View {
    View(x => if x == h && !Moved(before, after, h) then [RecordTx()] else [], after)
  }

  function TheEntry(h: int, after: HashAt, t: int): Entry
    requires Readable(after, h)
  {
    Entry([ThePair(h)], map[h := LowerCase(after(h).value)], "carol", 0, t / EPOCH_LEN)
  }

  lemma ItsRulesAreReal(h: int, proven: int)
    ensures NamesEveryHash(ItsRules(h, proven)) && ByEpoch(ItsRules(h, proven))
  {
    hide TheEvent, RecordId;
    var r := ItsRules(h, proven);
    forall events, name, a, b ensures KeepsTo(r, events, name, a, b) { }
  }

  lemma RecordAuthor()
    ensures AuthorOf(RecordId()) == Some(HoldExample.MINE)
  {
    hide Txid, AuthorOf, HoldExample.Coin;
    HoldExample.SpendAuthor(RecordTx(), 30, HoldExample.MINE);
  }

  lemma OneHint(h: int)
    requires h >= 0
    ensures PairsOf(TheHints(h)) == Some([ThePair(h)])
    ensures ValidPairs(TheHints(h)) == [ThePair(h)]
    ensures SortHintPairs(TheHints(h)) == [ThePair(h)]
  {
    assert LowerCase(TXID) == TXID;
    assert TheHints(h)[..0] == [] && |TXID| == 2;
    assert PairsOf([]) == Some([]) && ValidPairs([]) == [];
    assert PairOf(TheHints(h)[0]) == ThePair(h);
    assert ValidPairs(TheHints(h)) == ValidPairs([]) + [ThePair(h)];
    assert PairsOf(TheHints(h)).value == [] + [ThePair(h)] == [ThePair(h)];
    assert [ThePair(h)][1..] == [] && SortOf([]) == [];
  }

  // The record is found where it is mined, and nowhere in an empty block.
  lemma Found(h: int, proven: int, chain: int -> Body)
    requires chain(h) == [RecordTx()]
    ensures MinedEvent(ItsRules(h, proven), chain, ThePair(h)) == Some(TheEvent(h))
  {
    RecordAuthor();
    hide Txid, AuthorOf, HoldExample.Coin;
    assert Ids(chain(h)) == [RecordId()];
  }

  lemma NotFound(h: int, proven: int, chain: int -> Body)
    requires chain(h) == []
    ensures MinedEvent(ItsRules(h, proven), chain, ThePair(h)).None?
  {
    assert Ids(chain(h)) == [];
  }

  lemma OneEvidence(r: Names.Rules, chain: int -> Body, p: HintPair)
    ensures Evidence(r, chain, [p]) == EvidenceOne(r, chain, p) && (AllMined(r, chain, [p]) <==> MinedEvent(r, chain, p).Some?)
  {
    hide MinedEvent, EvidenceOne;
    assert [p][..0] == [];
    assert Evidence(r, chain, []) == multiset{};
    assert p in [p];
  }

  // With the record mined, the name is backed up to the end of its lease; without it never.
  lemma BackedWhile(h: int, proven: int, chain: int -> Body, t: int)
    requires chain(h) == [RecordTx()] || chain(h) == []
    ensures Backed(ItsRules(h, proven), chain, NAME, [ThePair(h)], t, "carol", false) <==> chain(h) == [RecordTx()] && t / EPOCH_LEN <= proven / EPOCH_LEN
  {
    OneEvidence(ItsRules(h, proven), chain, ThePair(h));
    if chain(h) == [] { NotFound(h, proven, chain); } else { Found(h, proven, chain); }
    assert LowerCase("Carol") == "carol";
    hide MinedEvent, AllMined, TheEvent, RecordTx, Evidence;
  }

  lemma ViewsFit(h: int, before: HashAt, after: HashAt)
    requires before(h).Some?
    ensures HashFixes(ProofView(h, before), LaterView(h, before, after))
  {
    hide Ids, RecordTx;
    var v, w := ProofView(h, before), LaterView(h, before, after);
    forall x | v.hash(x).Some? && w.hash(x).Some? && LowerCase(v.hash(x).value) == LowerCase(w.hash(x).value)
      ensures v.chain(x) == w.chain(x)
    {
      if x == h {
        assert before(x) == v.hash(x) && after(x) == w.hash(x);
        assert !Moved(before, after, h);
        LaterChain(h, before, after);
      }
    }
  }

  lemma StillSkips(h: int, before: HashAt, after: HashAt, t: int)
    requires h >= 0 && Readable(after, h)
    ensures HashedOn(TheEntry(h, after, t), LaterView(h, before, after))
    ensures Skips(TheEntry(h, after, t), SortHintPairs(TheHints(h)), [], 0, Some(t / EPOCH_LEN), after)
  {
    OneHint(h);
    LowerTwice(after(h).value);
    hide SortHintPairs, RecordTx;
  }

  // A moved header, or a tip in a later epoch than the proof's, is enough: here is the name.
  lemma UnsafeWhen(h: int, before: HashAt, after: HashAt, proven: int, t: int)
    requires h >= 0 && before(h).Some? && Readable(after, h)
    requires Moved(before, after, h) || proven / EPOCH_LEN < t / EPOCH_LEN
    ensures Unsafe(ItsRules(h, proven), NAME, TheEntry(h, after, t), TheHints(h), ProofView(h, before), proven, LaterView(h, before, after), t)
  {
    hide ItsRules, NamesEveryHash, ByEpoch, HashFixes, HashedOn, Skips, SortHintPairs, ValidPairs, PairsOf, Backed, RecordTx, Moved;
    ItsRulesAreReal(h, proven);
    OneHint(h);
    ViewsFit(h, before, after);
    StillSkips(h, before, after, t);
    BackedWhile(h, proven, ProofView(h, before).chain, proven);
    LaterChain(h, before, after);
    BackedWhile(h, proven, LaterView(h, before, after).chain, t);
  }

  lemma LaterChain(h: int, before: HashAt, after: HashAt)
    ensures LaterView(h, before, after).chain(h) == if Moved(before, after, h) then [] else [RecordTx()]
    ensures RecordTx() in [RecordTx()] && [RecordTx()] != []
  {
  }

  // And nothing else is: for records at these heights, an unsafe skip exists exactly when one of their headers moved
  // between the proof and the reading of the hashes, or the tip's epoch is past the proof's.
  lemma UnsafeExactly(heights: set<int>, before: HashAt, after: HashAt, proven: int, t: int)
    requires (exists h :: h in heights) && proven >= V25_HEIGHT && t >= V25_HEIGHT
    requires forall h :: h in heights ==> h >= 0 && before(h).Some? && Readable(after, h)
    ensures (exists r, name, e, hints, v, u :: UnsafeBetween(r, name, e, hints, v, u, heights, before, after, proven, t))
       <==> (exists h :: h in heights && Moved(before, after, h)) || proven / EPOCH_LEN < t / EPOCH_LEN
  {
    var some :| some in heights;
    hide Unsafe, Moved;
    if r, name, e, hints, v, u :| UnsafeBetween(r, name, e, hints, v, u, heights, before, after, proven, t) {
      SafeOtherwise(r, name, e, hints, v, u, heights, before, after, proven, t);
    }
    if (exists h :: h in heights && Moved(before, after, h)) || proven / EPOCH_LEN < t / EPOCH_LEN {
      var h := some;
      if proven / EPOCH_LEN >= t / EPOCH_LEN { h :| h in heights && Moved(before, after, h); }
      UnsafeWhen(h, before, after, proven, t);
      assert UnsafeBetween(ItsRules(h, proven), NAME, TheEntry(h, after, t), TheHints(h), ProofView(h, before), LaterView(h, before, after),
                           heights, before, after, proven, t);
    }
  }

  lemma SafeOtherwise(r: Names.Rules, name: string, e: Entry, hints: seq<Hint>, v: View, u: View,
                      heights: set<int>, before: HashAt, after: HashAt, proven: int, t: int)
    requires proven >= V25_HEIGHT && t >= V25_HEIGHT
    requires forall h :: h in heights ==> before(h).Some? && Readable(after, h)
    requires UnsafeBetween(r, name, e, hints, v, u, heights, before, after, proven, t)
    ensures (exists h :: h in heights && Moved(before, after, h)) || proven / EPOCH_LEN < t / EPOCH_LEN
  {
    hide NamesEveryHash, ByEpoch, HashFixes, ProvenOn, HashedOn, SortHintPairs, ValidPairs, Backed;
    if proven / EPOCH_LEN >= t / EPOCH_LEN && forall h :: h in heights ==> !Moved(before, after, h) {
      assert Unmoved(e, v, u);
      SameView(u);
      SkipIsBacked(r, name, e, [], e.ts, t, hints, v, proven, u, hints, u);
      assert false;
    }
  }

  lemma SameView(u: View)
    ensures HashFixes(u, u)
  {
  }
}
