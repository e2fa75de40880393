// Resolving a .csd name for a send: the records name sources hint at, each proved against a block the header chain
// fixes and the coin its author spends, replayed by the resolver's rules; the union over sources, the recovery from a
// poisoned union, and what a send is told.

module Names {
  import opened Base
  import opened Transactions
  import opened Blocks
  import Headers

  const MAX_HINTS: nat := 256

  // A source's hint. A height that is not an integer is None.
  datatype Hint = Hint(txid: string, height: Option<int>)

  // A proven record: its payload is the one its id hashes.
  datatype NameEvent = NameEvent(id: Hash, height: int, pos: nat, author: Address)

  datatype Record = Record(owner: string, addr: Option<string>, expired: bool, pending: bool, viaFill: bool)

  // How a hash is written in hex, signature recovery, and the vendored resolver, which sorts its events itself.
  datatype Rules = Rules(hex: Hash -> string, recover: Recover, resolve: (multiset<NameEvent>, int) -> map<string, Record>)

  datatype Prepared = Prepared(verifiedTip: int, nodeTip: Option<int>, floorTip: Option<int>)

  // What one replay is served: the sync, the verified merkle root at a height, the block bodies and spent transactions
  // of an untrusted node. None where the call throws.
  datatype Served = Served(prep: Option<Prepared>, root: int -> Option<Hash>, body: int -> Option<Body>, spent: (Hash, nat) -> Option<Transaction>)

  datatype Why = NoRecords | TooMany | BadHeight | AboveTip | Threw | BadBody | NotInBlock | NotSigned | NoCoin | NotOwner | NotARecord | NoOwnership | Reserved

  datatype Replay =
    | Proved(owner: string, addr: string, nset: bool, depth: int, viaFill: bool)
    | Lapsed(corroborated: bool)
    | Refused(why: Why)

  // A hint as it is proved: its txid in lower case, its height a whole number.
  datatype HintPair = HintPair(txid: string, height: int)

  // ---- One hint ----

  function PosFrom(ids: seq<Hash>, hex: Hash -> string, txid: string, k: nat): (r: Option<nat>)
    requires k <= |ids|
    ensures r.Some? ==> k <= r.value < |ids| && hex(ids[r.value]) == txid
    decreases |ids| - k
  {
    if k == |ids| then None else if hex(ids[k]) == txid then Some(k) else PosFrom(ids, hex, txid, k + 1)
  }

  function Spent(s: Served, tx: Transaction): Option<Transaction> {
    if tx.inputs == [] then None else s.spent(tx.inputs[0].prevTxid, tx.inputs[0].vout)
  }

  // The hint in a body already bound at its height.
  function ProveIn(r: Rules, s: Served, body: Body, hint: HintPair): Result<NameEvent, Why> {
    var pos := PosFrom(Ids(body), r.hex, hint.txid, 0);
    if pos.None? then Err(NotInBlock)
    else
      var tx := body[pos.value];
      match BindSigner(tx, Spent(s, tx), r.recover)
      case Unsigned => Err(NotSigned)
      case NoInput => Err(NoCoin)
      case NotOwner => Err(Why.NotOwner)
      case Signer(who) => if tx.app.NoApp? then Err(NotARecord) else Ok(NameEvent(Txid(tx), hint.height, pos.value, who))
  }

  function BodyAt(s: Served, h: int): Result<Body, Why> {
    if s.root(h).None? || s.body(h).None? then Err(Threw)
    else if Binds(s.body(h).value, s.root(h).value) then Ok(s.body(h).value) else Err(BadBody)
  }

  function Prove(r: Rules, s: Served, hint: HintPair): Result<NameEvent, Why> {
    match BodyAt(s, hint.height)
    case Err(w) => Err(w)
    case Ok(body) => ProveIn(r, s, body, hint)
  }

  // ---- All hints, block by block ----

  predicate Placed(h: Hint) { h.height.Some? && h.height.value >= 0 }

  function PairOf(h: Hint): HintPair { HintPair(LowerCase(h.txid), if h.height.Some? then h.height.value else -1) }

  // The hints as pairs, or None when a height is not a whole number.
  function PairsOf(hints: seq<Hint>): Option<seq<HintPair>> {
    if hints == [] then Some([])
    else
      var before, h := PairsOf(hints[..|hints| - 1]), hints[|hints| - 1];
      if before.None? || !Placed(h) then None else Some(before.value + [PairOf(h)])
  }

  function MaxHeight(hints: seq<HintPair>): int {
    if hints == [] then 0 else Max(MaxHeight(hints[..|hints| - 1]), hints[|hints| - 1].height)
  }

  // The heights in the order they first come up, and the hints at one.
  function HeightsOf(hints: seq<HintPair>): seq<int> {
    if hints == [] then []
    else
      var before, h := HeightsOf(hints[..|hints| - 1]), hints[|hints| - 1].height;
      if h in before then before else before + [h]
  }

  function At(hints: seq<HintPair>, h: int): seq<HintPair> {
    if hints == [] then []
    else At(hints[..|hints| - 1], h) + if hints[|hints| - 1].height == h then [hints[|hints| - 1]] else []
  }

  function GroupsOf(heights: seq<int>, hints: seq<HintPair>): seq<HintPair> {
    if heights == [] then [] else GroupsOf(heights[..|heights| - 1], hints) + At(hints, heights[|heights| - 1])
  }

  function Grouped(hints: seq<HintPair>): seq<HintPair> { GroupsOf(HeightsOf(hints), hints) }

  function ProveAll(r: Rules, s: Served, hints: seq<HintPair>): Result<seq<NameEvent>, Why> {
    if hints == [] then Ok([])
    else
      match ProveAll(r, s, hints[..|hints| - 1])
      case Err(w) => Err(w)
      case Ok(before) => Extended(before, Prove(r, s, hints[|hints| - 1]))
  }

  function Extended(before: seq<NameEvent>, one: Result<NameEvent, Why>): Result<seq<NameEvent>, Why> {
    match one
    case Err(w) => Err(w)
    case Ok(e) => Ok(before + [e])
  }

  // The tip a lapse is read at: the node's claim counts only upwards.
  function LapseTip(p: Prepared): int { Max(p.verifiedTip, if p.nodeTip.Some? then p.nodeTip.value else 0) }

  function FloorOf(p: Prepared): int { if p.floorTip.Some? then p.floorTip.value else 0 }

  predicate ExpiredAt(r: Rules, name: string, events: multiset<NameEvent>, tip: int) {
    var names := r.resolve(events, tip);
    name in names && names[name].expired
  }

  function Target(rec: Record): string { LowerCase(if rec.addr.Some? then rec.addr.value else rec.owner) }

  // What the resolver says of the proven records.
  function Judge(r: Rules, name: string, events: multiset<NameEvent>, p: Prepared, maxHeight: int): Replay {
    var names := r.resolve(events, LapseTip(p));
    if name !in names then Refused(NoOwnership)
    else if names[name].expired then Lapsed(FloorOf(p) > 0 && ExpiredAt(r, name, events, FloorOf(p)))
    else if names[name].pending then Refused(Reserved)
    else
      var rec := names[name];
      Proved(LowerCase(rec.owner), Target(rec), rec.addr.Some? && rec.addr.value != [], Max(0, p.verifiedTip - maxHeight + 1), rec.viaFill)
  }

  function ReplayPairs(r: Rules, name: string, hints: seq<HintPair>, s: Served): Replay {
    if s.prep.None? then Refused(Threw)
    else if MaxHeight(hints) > s.prep.value.verifiedTip then Refused(AboveTip)
    else
      match ProveAll(r, s, Grouped(hints))
      case Err(w) => Refused(w)
      case Ok(events) => Judge(r, name, multiset(events), s.prep.value, MaxHeight(hints))
  }

  function ReplayOf(r: Rules, name: string, hints: seq<Hint>, s: Served): Replay {
    if hints == [] then Refused(NoRecords)
    else if |hints| > MAX_HINTS then Refused(TooMany)
    else if PairsOf(hints).None? then Refused(BadHeight)
    else ReplayPairs(r, name, PairsOf(hints).value, s)
  }

  lemma {:induction false} ErrStays(r: Rules, s: Served, a: seq<HintPair>, b: seq<HintPair>)
    requires ProveAll(r, s, a).Err?
    ensures ProveAll(r, s, a + b) == ProveAll(r, s, a)
  {
    hide Prove;
    if b == [] { assert a + b == a; }
    else {
      assert (a + b)[..|a + b| - 1] == a + b[..|b| - 1];
      ErrStays(r, s, a, b[..|b| - 1]);
    }
  }

  lemma {:induction false} ProveSnoc(r: Rules, s: Served, a: seq<HintPair>, x: HintPair)
    requires ProveAll(r, s, a).Ok?
    ensures ProveAll(r, s, a + [x]) == Extended(ProveAll(r, s, a).value, Prove(r, s, x))
  {
    hide Prove;
    assert (a + [x])[..|a|] == a;
  }

  lemma {:induction false} AtIsAll(hints: seq<HintPair>, h: int)
    ensures forall x :: x in At(hints, h) ==> x.height == h
  {
    if hints != [] { AtIsAll(hints[..|hints| - 1], h); }
  }

  lemma {:induction false} GroupsSplit(heights: seq<int>, hints: seq<HintPair>, i: nat)
    requires i < |heights|
    ensures GroupsOf(heights[..i + 1], hints) == GroupsOf(heights[..i], hints) + At(hints, heights[i])
    ensures GroupsOf(heights[..i + 1], hints) <= GroupsOf(heights, hints)
    decreases |heights| - i
  {
    assert heights[..i + 1][..i] == heights[..i];
    if i + 1 == |heights| {
      assert heights[..i + 1] == heights;
    } else {
      GroupsSplit(heights, hints, i + 1);
    }
  }

  // The hints grouped by height, in the order of the map's keys; a hint with no proper height stops it.
  method GroupByHeight(hints: seq<Hint>) returns (order: seq<int>, groups: map<int, seq<HintPair>>, maxHeight: int, ok: bool)
    ensures ok <==> PairsOf(hints).Some?
    ensures ok <==> forall h :: h in hints ==> h.height.Some? && h.height.value >= 0
    ensures ok ==> order == HeightsOf(PairsOf(hints).value) && maxHeight == MaxHeight(PairsOf(hints).value)
    ensures ok ==> forall h :: h in order ==> h in groups && groups[h] == At(PairsOf(hints).value, h)
  {
    hide PairsOf, HeightsOf, MaxHeight, At, PairOf, Placed;
    order, groups, maxHeight, ok := [], map[], 0, true;
    ghost var pairs: seq<HintPair> := [];
    NoHints();
    for i := 0 to |hints|
      invariant PairsOf(hints[..i]) == Some(pairs)
      invariant order == HeightsOf(pairs) && maxHeight == MaxHeight(pairs)
      invariant GroupsFit(groups, order, pairs)
    {
      var h := hints[i];
      if !Placed(h) {
        BadStays(hints, i);
        PairsIff(hints);
        ok := false;
        return;
      }
      var p := PairOf(h);
      PairsSnoc(hints, i, pairs);
      HeightsSnoc(pairs, p);
      GroupsGrow(groups, order, pairs, p);
      if p.height in groups {
        groups := groups[p.height := groups[p.height] + [p]];
      } else {
        order := order + [p.height];
        groups := groups[p.height := [p]];
      }
      maxHeight := Max(maxHeight, p.height);
      pairs := pairs + [p];
    }
    assert hints[..|hints|] == hints;
    PairsIff(hints);
  }

  lemma {:induction false} PairsIff(hints: seq<Hint>)
    ensures PairsOf(hints).Some? <==> forall h :: h in hints ==> h.height.Some? && h.height.value >= 0
  {
    if hints != [] {
      PairsIff(hints[..|hints| - 1]);
      assert forall h :: h in hints <==> h in hints[..|hints| - 1] || h == hints[|hints| - 1];
    }
  }

  lemma NoHints()
    ensures PairsOf([]) == Some([]) && HeightsOf([]) == [] && MaxHeight([]) == 0 && GroupsFit(map[], [], [])
  {
  }

  lemma PairsSnoc(hints: seq<Hint>, i: nat, pairs: seq<HintPair>)
    requires i < |hints| && Placed(hints[i]) && PairsOf(hints[..i]) == Some(pairs)
    ensures PairsOf(hints[..i + 1]) == Some(pairs + [PairOf(hints[i])])
  {
    assert hints[..i + 1][..i] == hints[..i];
  }

  lemma HeightsSnoc(pairs: seq<HintPair>, p: HintPair)
    ensures HeightsOf(pairs + [p]) == HeightsOf(pairs) + if p.height in HeightsOf(pairs) then [] else [p.height]
    ensures MaxHeight(pairs + [p]) == Max(MaxHeight(pairs), p.height)
  {
    assert (pairs + [p])[..|pairs|] == pairs;
  }

  ghost predicate GroupsFit(groups: map<int, seq<HintPair>>, order: seq<int>, pairs: seq<HintPair>) {
    && (forall h :: h in groups <==> h in order)
    && (forall h :: h in groups ==> groups[h] == At(pairs, h))
    && (forall h :: h !in groups ==> At(pairs, h) == [])
  }

  lemma {:induction false} GroupsGrow(groups: map<int, seq<HintPair>>, order: seq<int>, pairs: seq<HintPair>, p: HintPair)
    requires GroupsFit(groups, order, pairs)
    ensures p.height in groups ==> GroupsFit(groups[p.height := groups[p.height] + [p]], order, pairs + [p])
    ensures p.height !in groups ==> GroupsFit(groups[p.height := [p]], order + [p.height], pairs + [p])
  {
    assert (pairs + [p])[..|pairs|] == pairs;
    forall h ensures At(pairs + [p], h) == At(pairs, h) + if p.height == h then [p] else [] { }
  }

  lemma {:induction false} BadStays(hints: seq<Hint>, i: nat)
    requires i < |hints| && !Placed(hints[i])
    ensures PairsOf(hints).None?
    decreases |hints|
  {
    if i < |hints| - 1 { BadStays(hints[..|hints| - 1], i); }
  }

  method ReplayName(r: Rules, name: string, hints: seq<Hint>, s: Served) returns (rep: Replay)
    ensures rep == ReplayOf(r, name, hints, s)
    ensures hints == [] ==> rep == Refused(NoRecords)
    ensures |hints| > 256 ==> rep == Refused(TooMany)
  {
    hide ProveAll, Judge, PairsOf, MaxHeight, HeightsOf, At;
    if hints == [] { return Refused(NoRecords); }
    if |hints| > MAX_HINTS { return Refused(TooMany); }
    var order, groups, maxHeight, ok := GroupByHeight(hints);
    if !ok { return Refused(BadHeight); }
    if s.prep.None? { return Refused(Threw); }
    if maxHeight > s.prep.value.verifiedTip { return Refused(AboveTip); }
    var events: seq<NameEvent> := [];
    ghost var pairs := PairsOf(hints).value;
    ProveNone(r, s);
    for i := 0 to |order|
      invariant ProveAll(r, s, GroupsOf(order[..i], pairs)) == Ok(events)
    {
      GroupsSplit(order, pairs, i);
      AtIsAll(pairs, order[i]);
      var res := ProveGroup(r, s, groups[order[i]], order[i], GroupsOf(order[..i], pairs), events);
      if res.Err? {
        ghost var done := GroupsOf(order[..i + 1], pairs);
        ErrStays(r, s, done, Grouped(pairs)[|done|..]);
        assert done + Grouped(pairs)[|done|..] == Grouped(pairs);
        return Refused(res.error);
      }
      events := res.value;
    }
    assert order[..|order|] == order;
    rep := Judge(r, name, multiset(events), s.prep.value, maxHeight);
  }

  lemma ProveNone(r: Rules, s: Served)
    ensures ProveAll(r, s, []) == Ok([])
  {
  }

  // One block: bound once, then each of its hints found in it and its author bound.
  method ProveGroup(r: Rules, s: Served, hs: seq<HintPair>, height: int, ghost before: seq<HintPair>, events: seq<NameEvent>)
    returns (res: Result<seq<NameEvent>, Why>)
    requires ProveAll(r, s, before) == Ok(events)
    requires forall x :: x in hs ==> x.height == height
    ensures res == ProveAll(r, s, before + hs)
  {
    hide ProveAll, ProveIn, BindSigner, Txid;
    if hs == [] {
      assert before + hs == before;
      return Ok(events);
    }
    assert hs[0] in hs;
    if s.root(height).None? || s.body(height).None? {
      FirstFails(r, s, before, hs);
      return Err(Threw);
    }
    var bound := BindBlockTxs(s.body(height).value, s.root(height).value);
    if !bound.Bound? {
      FirstFails(r, s, before, hs);
      return Err(BadBody);
    }
    var out := events;
    assert before + hs[..0] == before;
    for j := 0 to |hs|
      invariant ProveAll(r, s, before + hs[..j]) == Ok(out)
    {
      assert hs[j] in hs;
      ProveSnoc(r, s, before + hs[..j], hs[j]);
      assert before + hs[..j] + [hs[j]] == before + hs[..j + 1];
      var one := ProveIn(r, s, bound.txs, hs[j]);
      if one.Err? {
        ErrStays(r, s, before + hs[..j + 1], hs[j + 1..]);
        assert before + hs[..j + 1] + hs[j + 1..] == before + hs;
        return Err(one.error);
      }
      out := out + [one.value];
    }
    assert hs[..|hs|] == hs;
    res := Ok(out);
  }

  lemma {:induction false} FirstFails(r: Rules, s: Served, before: seq<HintPair>, hs: seq<HintPair>)
    requires ProveAll(r, s, before).Ok? && hs != [] && BodyAt(s, hs[0].height).Err?
    ensures ProveAll(r, s, before + hs) == Err(BodyAt(s, hs[0].height).error)
  {
    ProveSnoc(r, s, before, hs[0]);
    assert before + [hs[0]] + hs[1..] == before + hs;
    ErrStays(r, s, before + [hs[0]], hs[1..]);
  }

  // ---- What a replay proves ----

  // The record a pair names on the mined chain, with the owner of the coin it spends; None when there is none.
  ghost function MinedEvent(r: Rules, chain: int -> Body, p: HintPair): Option<NameEvent> {
    var ids := Ids(chain(p.height));
    var pos := PosFrom(ids, r.hex, p.txid, 0);
    if pos.None? || AuthorOf(ids[pos.value]).None? then None
    else Some(NameEvent(ids[pos.value], p.height, pos.value, AuthorOf(ids[pos.value]).value))
  }

  ghost predicate AllMined(r: Rules, chain: int -> Body, pairs: seq<HintPair>) {
    forall p :: p in pairs ==> MinedEvent(r, chain, p).Some?
  }

  ghost function EvidenceOne(r: Rules, chain: int -> Body, p: HintPair): multiset<NameEvent> {
    if MinedEvent(r, chain, p).Some? then multiset{MinedEvent(r, chain, p).value} else multiset{}
  }

  // The records the chain holds for the pairs.
  ghost function Evidence(r: Rules, chain: int -> Body, pairs: seq<HintPair>): multiset<NameEvent> {
    if pairs == [] then multiset{} else Evidence(r, chain, pairs[..|pairs| - 1]) + EvidenceOne(r, chain, pairs[|pairs| - 1])
  }

  // The verified roots are the mined chain's.
  ghost predicate Rooted(s: Served, chain: int -> Body) {
    forall h :: s.root(h).Some? ==> Binds(chain(h), s.root(h).value)
  }

  lemma {:induction false} ProveIsMined(r: Rules, s: Served, chain: int -> Body, p: HintPair)
    requires Rooted(s, chain) && Prove(r, s, p).Ok?
    ensures MinedEvent(r, chain, p) == Some(Prove(r, s, p).value)
  {
    var body := s.body(p.height).value;
    BoundIsMined(body, chain(p.height), s.root(p.height).value);
    var pos := PosFrom(Ids(body), r.hex, p.txid, 0).value;
    BoundAuthorIsTheAuthor(body[pos], Spent(s, body[pos]), r.recover);
  }

  lemma {:induction false} ProveAllIsMined(r: Rules, s: Served, chain: int -> Body, pairs: seq<HintPair>)
    requires Rooted(s, chain) && ProveAll(r, s, pairs).Ok?
    ensures AllMined(r, chain, pairs) && multiset(ProveAll(r, s, pairs).value) == Evidence(r, chain, pairs)
  {
    hide Prove, MinedEvent;
    if pairs != [] {
      var init, p := pairs[..|pairs| - 1], pairs[|pairs| - 1];
      ProveAllIsMined(r, s, chain, init);
      ProveIsMined(r, s, chain, p);
      assert forall x :: x in pairs <==> x in init || x == p;
    }
  }

  lemma {:induction false} EvidenceSplit(r: Rules, chain: int -> Body, a: seq<HintPair>, b: seq<HintPair>)
    ensures Evidence(r, chain, a + b) == Evidence(r, chain, a) + Evidence(r, chain, b)
  {
    hide EvidenceOne;
    if b == [] { assert a + b == a; }
    else {
      assert (a + b)[..|a + b| - 1] == a + b[..|b| - 1];
      EvidenceSplit(r, chain, a, b[..|b| - 1]);
    }
  }

  lemma {:induction false} EvidenceWithout(r: Rules, chain: int -> Body, b: seq<HintPair>, i: nat)
    requires i < |b|
    ensures Evidence(r, chain, b) == Evidence(r, chain, b[..i] + b[i + 1..]) + EvidenceOne(r, chain, b[i])
  {
    hide EvidenceOne;
    EvidenceSplit(r, chain, b[..i + 1], b[i + 1..]);
    EvidenceSplit(r, chain, b[..i], b[i + 1..]);
    assert b == b[..i + 1] + b[i + 1..] && b[..i + 1][..i] == b[..i];
  }

  lemma MultisetWithout<T>(b: seq<T>, i: nat)
    requires i < |b|
    ensures multiset(b[..i] + b[i + 1..]) == multiset(b) - multiset{b[i]}
  {
    assert b == b[..i] + [b[i]] + b[i + 1..];
    assert multiset(b) == multiset(b[..i] + b[i + 1..]) + multiset{b[i]};
  }

  // The order the hints are proved in does not matter.
  lemma {:induction false} EvidencePermutes(r: Rules, chain: int -> Body, a: seq<HintPair>, b: seq<HintPair>)
    requires multiset(a) == multiset(b)
    ensures Evidence(r, chain, a) == Evidence(r, chain, b)
    decreases |a|
  {
    assert |a| == |multiset(a)| == |multiset(b)| == |b|;
    if a != [] {
      var n, x := |a| - 1, a[|a| - 1];
      assert x in multiset(a) && x in multiset(b);
      var i :| 0 <= i < |b| && b[i] == x;
      MultisetWithout(a, n);
      MultisetWithout(b, i);
      var init, rest := a[..n] + a[n + 1..], b[..i] + b[i + 1..];
      hide Evidence, EvidenceOne;
      EvidencePermutes(r, chain, init, rest);
      EvidenceWithout(r, chain, b, i);
      EvidenceWithout(r, chain, a, n);
    } else {
      assert b == a;
    }
  }

  lemma {:induction false} AtCount(pairs: seq<HintPair>, h: int, x: HintPair)
    ensures multiset(At(pairs, h))[x] == if x.height == h then multiset(pairs)[x] else 0
  {
    if pairs != [] {
      var init, p := pairs[..|pairs| - 1], pairs[|pairs| - 1];
      assert pairs == init + [p];
      AtCount(init, h, x);
      assert multiset(pairs) == multiset(init) + multiset{p};
      if p.height == h {
        assert multiset(At(pairs, h)) == multiset(At(init, h)) + multiset{p};
      } else {
        assert At(pairs, h) == At(init, h);
      }
    }
  }

  lemma {:induction false} GroupsCount(heights: seq<int>, pairs: seq<HintPair>, x: HintPair)
    requires Distinct(heights)
    ensures multiset(GroupsOf(heights, pairs))[x] == if x.height in heights then multiset(pairs)[x] else 0
  {
    if heights != [] {
      var init, h := heights[..|heights| - 1], heights[|heights| - 1];
      GroupsCount(init, pairs, x);
      AtCount(pairs, h, x);
      assert multiset(GroupsOf(heights, pairs)) == multiset(GroupsOf(init, pairs)) + multiset(At(pairs, h));
      assert forall k :: k in heights <==> k in init || k == h;
      assert h !in init;
    }
  }

  lemma {:induction false} HeightsDistinct(pairs: seq<HintPair>)
    ensures Distinct(HeightsOf(pairs)) && forall p :: p in pairs ==> p.height in HeightsOf(pairs)
  {
    if pairs != [] {
      HeightsDistinct(pairs[..|pairs| - 1]);
      assert forall p :: p in pairs ==> p in pairs[..|pairs| - 1] || p == pairs[|pairs| - 1];
    }
  }

  // Grouping by block loses no hint and adds none.
  lemma {:induction false} GroupedSame(pairs: seq<HintPair>)
    ensures multiset(Grouped(pairs)) == multiset(pairs)
  {
    HeightsDistinct(pairs);
    forall x ensures multiset(Grouped(pairs))[x] == multiset(pairs)[x] {
      GroupsCount(HeightsOf(pairs), pairs, x);
      if x.height !in HeightsOf(pairs) { assert x !in pairs; }
    }
  }

  lemma SameMembers(a: seq<HintPair>, b: seq<HintPair>)
    requires multiset(a) == multiset(b)
    ensures forall p :: p in a <==> p in b
  {
    forall p ensures p in a <==> p in b { assert p in a <==> p in multiset(a); }
  }

  // The pairs are mined, their authors own the coins they spend, and the resolver's replay of exactly those records at
  // this tip gives the name this address, with no open reservation and no lapsed lease.
  ghost predicate Backed(r: Rules, chain: int -> Body, name: string, pairs: seq<HintPair>, tip: int, addr: string, viaFill: bool) {
    && AllMined(r, chain, pairs)
    && var names := r.resolve(Evidence(r, chain, pairs), tip);
      && name in names && !names[name].expired && !names[name].pending && viaFill == names[name].viaFill
      && match names[name].addr
         case Some(setTo) => addr == LowerCase(setTo)
         case None => addr == LowerCase(names[name].owner)
  }

  // The owner, whether the address is one the record sets, and the confirmations of its newest record: from there to the
  // verified tip, both counted.
  ghost predicate Described(r: Rules, chain: int -> Body, name: string, pairs: seq<HintPair>, p: Prepared, rep: Replay)
    requires rep.Proved?
  {
    var names := r.resolve(Evidence(r, chain, pairs), Max(p.verifiedTip, if p.nodeTip.Some? then p.nodeTip.value else 0));
    && name in names && rep.owner == LowerCase(names[name].owner) && (rep.nset <==> names[name].addr.Some? && names[name].addr.value != [])
    && (pairs != [] ==> exists last :: last in pairs && (forall x :: x in pairs ==> x.height <= last.height) && rep.depth == p.verifiedTip + 1 - last.height)
  }

  lemma {:induction false} MaxHeightIs(pairs: seq<HintPair>) returns (last: HintPair)
    requires pairs != [] && forall x :: x in pairs ==> x.height >= 0
    ensures last in pairs && last.height == MaxHeight(pairs) && forall x :: x in pairs ==> x.height <= MaxHeight(pairs)
  {
    var init, p := pairs[..|pairs| - 1], pairs[|pairs| - 1];
    assert forall x :: x in pairs <==> x in init || x == p;
    last := p;
    if init != [] {
      var before := MaxHeightIs(init);
      if before.height > p.height { last := before; }
    }
  }

  lemma {:induction false} PairsPlaced(hints: seq<Hint>)
    requires PairsOf(hints).Some?
    ensures forall x :: x in PairsOf(hints).value ==> x.height >= 0
  {
    if hints != [] { PairsPlaced(hints[..|hints| - 1]); }
  }

  // Whatever bodies and spent transactions are served, a replay that proves an address proves the chain's.
  lemma {:induction false} ReplayIsBacked(r: Rules, name: string, hints: seq<Hint>, s: Served, chain: int -> Body)
    requires Rooted(s, chain) && ReplayOf(r, name, hints, s).Proved?
    ensures PairsOf(hints).Some? && s.prep.Some? && MaxHeight(PairsOf(hints).value) <= s.prep.value.verifiedTip
    ensures Backed(r, chain, name, PairsOf(hints).value, LapseTip(s.prep.value), ReplayOf(r, name, hints, s).addr, ReplayOf(r, name, hints, s).viaFill)
    ensures Described(r, chain, name, PairsOf(hints).value, s.prep.value, ReplayOf(r, name, hints, s))
  {
    hide PairsOf, MaxHeight, ProveAll, Evidence, MinedEvent, HeightsOf, GroupsOf;
    var pairs := PairsOf(hints).value;
    ProveAllIsMined(r, s, chain, Grouped(pairs));
    GroupedSame(pairs);
    EvidencePermutes(r, chain, Grouped(pairs), pairs);
    SameMembers(Grouped(pairs), pairs);
    PairsPlaced(hints);
    if pairs != [] { var last := MaxHeightIs(pairs); }
  }

  // A lapse is the chain's too: the records' lease has run out at the tip read, and, when corroborated, already at the
  // floor of earlier sessions.
  lemma {:induction false} LapseIsBacked(r: Rules, name: string, hints: seq<Hint>, s: Served, chain: int -> Body)
    requires Rooted(s, chain) && ReplayOf(r, name, hints, s).Lapsed?
    ensures PairsOf(hints).Some? && s.prep.Some? && AllMined(r, chain, PairsOf(hints).value)
    ensures ExpiredAt(r, name, Evidence(r, chain, PairsOf(hints).value), LapseTip(s.prep.value))
    ensures ReplayOf(r, name, hints, s).corroborated <==>
      FloorOf(s.prep.value) > 0 && ExpiredAt(r, name, Evidence(r, chain, PairsOf(hints).value), FloorOf(s.prep.value))
  {
    hide PairsOf, MaxHeight, ProveAll, Evidence, MinedEvent, HeightsOf, GroupsOf;
    var pairs := PairsOf(hints).value;
    ProveAllIsMined(r, s, chain, Grouped(pairs));
    GroupedSame(pairs);
    EvidencePermutes(r, chain, Grouped(pairs), pairs);
    SameMembers(Grouped(pairs), pairs);
  }

  // ---- When a replay answers ----

  // The pair's record is mined at its height, signed by the owner of the coin it spends, and served: the verified root and
  // a body that binds to it, in which the signature is the author's, and the transaction spent.
  ghost predicate ServedTrue(r: Rules, s: Served, chain: int -> Body, p: HintPair) {
    && MinedEvent(r, chain, p).Some?
    && s.root(p.height).Some? && Binds(chain(p.height), s.root(p.height).value)
    && s.body(p.height).Some? && Binds(s.body(p.height).value, s.root(p.height).value)
    && forall tx :: tx in s.body(p.height).value && Txid(tx) == MinedEvent(r, chain, p).value.id ==> SignedByOwner(r, s, tx)
  }

  ghost predicate SignedByOwner(r: Rules, s: Served, tx: Transaction) {
    && tx.inputs != [] && r.recover(tx.inputs[0].scriptSig, Stripped(tx, Zero)) == AuthorOf(Txid(tx))
    && !tx.app.NoApp? && Spent(s, tx).Some? && Txid(Spent(s, tx).value) == tx.inputs[0].prevTxid && !IsCoinbase(tx.inputs[0], Zero)
  }

  lemma {:induction false} BoundBodyHasIt(r: Rules, s: Served, chain: int -> Body, p: HintPair)
    requires MinedEvent(r, chain, p).Some? && s.root(p.height).Some? && Binds(chain(p.height), s.root(p.height).value)
    requires s.body(p.height).Some? && Binds(s.body(p.height).value, s.root(p.height).value)
    ensures Ids(s.body(p.height).value) == Ids(chain(p.height))
  {
    BoundIsMined(s.body(p.height).value, chain(p.height), s.root(p.height).value);
  }

  // A record truly served is proved as mined.
  lemma {:induction false} TrueIsProved(r: Rules, s: Served, chain: int -> Body, p: HintPair)
    requires ServedTrue(r, s, chain, p)
    ensures Prove(r, s, p) == Ok(MinedEvent(r, chain, p).value)
  {
    BoundBodyHasIt(r, s, chain, p);
    var body := s.body(p.height).value;
    var pos := PosFrom(Ids(body), r.hex, p.txid, 0).value;
    hide PosFrom;
    assert body[pos] in body && Ids(body)[pos] == Txid(body[pos]);
    BindsIff(body[pos], Spent(s, body[pos]), r.recover);
    BoundAuthorIsTheAuthor(body[pos], Spent(s, body[pos]), r.recover);
  }

  lemma {:induction false} AllTrueProved(r: Rules, s: Served, chain: int -> Body, pairs: seq<HintPair>)
    requires forall p :: p in pairs ==> ServedTrue(r, s, chain, p)
    ensures ProveAll(r, s, pairs).Ok? && multiset(ProveAll(r, s, pairs).value) == Evidence(r, chain, pairs)
  {
    hide ServedTrue, Prove, MinedEvent;
    if pairs != [] {
      var init, p := pairs[..|pairs| - 1], pairs[|pairs| - 1];
      assert forall x :: x in pairs <==> x in init || x == p;
      AllTrueProved(r, s, chain, init);
      TrueIsProved(r, s, chain, p);
      assert MinedEvent(r, chain, p).Some? by { TrueIsMined(r, s, chain, p); }
    }
  }

  lemma TrueIsMined(r: Rules, s: Served, chain: int -> Body, p: HintPair)
    requires ServedTrue(r, s, chain, p)
    ensures MinedEvent(r, chain, p).Some?
  {
  }

  // A replay that is truly served answers, and as the resolver judges the mined records at the tip: no record of the name,
  // a lapsed lease, an open reservation, or an address, its proof backed.
  lemma {:induction false} TrueReplayAnswers(r: Rules, name: string, hints: seq<Hint>, s: Served, chain: int -> Body)
    requires 1 <= |hints| <= 256 && PairsOf(hints).Some? && s.prep.Some?
    requires forall p :: p in PairsOf(hints).value ==> p.height <= s.prep.value.verifiedTip && ServedTrue(r, s, chain, p)
    ensures var rep, p := ReplayOf(r, name, hints, s), s.prep.value;
      var names := r.resolve(Evidence(r, chain, PairsOf(hints).value), Max(p.verifiedTip, if p.nodeTip.Some? then p.nodeTip.value else 0));
      && (rep == Refused(NoOwnership) <==> name !in names)
      && (rep.Lapsed? <==> name in names && names[name].expired)
      && (rep == Refused(Reserved) <==> name in names && !names[name].expired && names[name].pending)
      && (rep.Proved? <==> name in names && !names[name].expired && !names[name].pending)
  {
    hide PairsOf, MaxHeight, ProveAll, Evidence, MinedEvent, HeightsOf, GroupsOf, ServedTrue;
    var pairs := PairsOf(hints).value;
    GroupedSame(pairs);
    SameMembers(Grouped(pairs), pairs);
    AllTrueProved(r, s, chain, Grouped(pairs));
    EvidencePermutes(r, chain, Grouped(pairs), pairs);
    PairsPlaced(hints);
    PairsAsMany(hints);
    var last := MaxHeightIs(pairs);
  }

  lemma {:induction false} PairsAsMany(hints: seq<Hint>)
    requires PairsOf(hints).Some?
    ensures |PairsOf(hints).value| == |hints|
    ensures forall i :: 0 <= i < |hints| ==> hints[i].height.Some? && PairsOf(hints).value[i] == HintPair(LowerCase(hints[i].txid), hints[i].height.value)
  {
    if hints != [] { PairsAsMany(hints[..|hints| - 1]); }
  }

  // Why one record is not proved: the block is not served or does not bind, it holds no such txid, or the record found
  // carries no signature, spends nothing, is not its owner's, or is no record at all.
  lemma {:induction false} ProveErrs(r: Rules, s: Served, p: HintPair)
    ensures var e := Prove(r, s, p);
      && (e == Err(Threw) <==> s.root(p.height).None? || s.body(p.height).None?)
      && (e == Err(BadBody) <==> s.root(p.height).Some? && s.body(p.height).Some? && !Binds(s.body(p.height).value, s.root(p.height).value))
      && (e == Err(NotInBlock) <==> BodyAt(s, p.height).Ok? && forall id :: id in Ids(s.body(p.height).value) ==> r.hex(id) != p.txid)
      && (e == Err(NotSigned) || e == Err(NoCoin) || e == Err(Why.NotOwner) || e == Err(NotARecord) ==>
            BodyAt(s, p.height).Ok? && exists tx :: tx in s.body(p.height).value && r.hex(Txid(tx)) == p.txid && FailsAs(r, s, tx, e.error))
      && (e.Ok? ==> e.value.height == p.height && r.hex(e.value.id) == p.txid
                    && exists tx :: tx in s.body(p.height).value && Txid(tx) == e.value.id && !tx.app.NoApp?)
  {
    if BodyAt(s, p.height).Ok? {
      var body := s.body(p.height).value;
      PosIs(Ids(body), r.hex, p.txid, 0);
      var pos := PosFrom(Ids(body), r.hex, p.txid, 0);
      if pos.Some? {
        var tx := body[pos.value];
        assert tx in body && Ids(body)[pos.value] in Ids(body) && Txid(tx) == Ids(body)[pos.value];
        BindsIff(tx, Spent(s, tx), r.recover);
        hide AuthorOf, Stripped;
        if Prove(r, s, p).Err? && !Prove(r, s, p).error.NotInBlock? { assert FailsAs(r, s, tx, Prove(r, s, p).error); }
      }
    }
  }

  // What is wrong with a record found in its block.
  ghost predicate FailsAs(r: Rules, s: Served, tx: Transaction, why: Why) {
    var signed := tx.inputs != [] && r.recover(tx.inputs[0].scriptSig, Stripped(tx, Zero)).Some?;
    match why
    case NotSigned => !signed
    case NoCoin => signed && tx.inputs[0].prevTxid == Zero && tx.inputs[0].vout == 0xFFFF_FFFF
    case NotOwner =>
      signed && !(Spent(s, tx).Some? && Txid(Spent(s, tx).value) == tx.inputs[0].prevTxid
                  && r.recover(tx.inputs[0].scriptSig, Stripped(tx, Zero)) == AuthorOf(Txid(tx)))
    case NotARecord => signed && tx.app.NoApp?
    case _ => false
  }

  lemma {:induction false} PosIs(ids: seq<Hash>, hex: Hash -> string, txid: string, k: nat)
    requires k <= |ids|
    ensures var r := PosFrom(ids, hex, txid, k);
      if r.Some? then forall i :: k <= i < r.value ==> hex(ids[i]) != txid else forall i :: k <= i < |ids| ==> hex(ids[i]) != txid
    decreases |ids| - k
  {
    if k < |ids| { PosIs(ids, hex, txid, k + 1); }
  }
}
