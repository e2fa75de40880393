// Rebuilding the evidence for a fill from block bodies a node may have altered: the two-pass lane scan, the author
// binds, and the count of the buyer's other holds live at the grant.

module FillScan {
  import opened Base
  import opened Transactions
  import opened Blocks

  const EPOCH_LEN: int := 30
  const MAX_HOLD_SPAN: int := EPOCH_LEN * 3 - 1                    // FCLAIM_MAX_EPOCH_AHEAD + 1 epochs, less a block
  const MAX_SCAN: int := EPOCH_LEN * 3 - 1 + 15 + EPOCH_LEN        // GAP_NEEDED + SCAN_MARGIN
  const MAX_ACTIVE_CLAIMS: nat := 3
  const LEGACY_HOLD_SUNSET_HEIGHT: int := 60_000 - 1 + 40 + 5      // V28_HEIGHT - 1, its claim window and its grace

  function HoldEnd(expiresEpoch: int): int { (expiresEpoch + 1) * EPOCH_LEN - 1 }

  // A hold lasts through the epoch it names: to a height exactly when the height is of no later epoch.
  lemma HoldLastsThroughEpoch(expiresEpoch: int, h: int)
    ensures h <= HoldEnd(expiresEpoch) <==> h / 30 <= expiresEpoch
  {
  }

  // parseRecord's verdict on a proposal's uri and payload hash.
  datatype Record = Ocancel | Fclaim(offer: Hash) | OtherRecord | NoRecord

  // A proven event. Its transaction, and so its app payload and payments, is the one its id hashes.
  datatype Event = Event(id: Hash, height: int, pos: nat, author: Address)

  datatype OtherHold = OtherHold(id: Hash, height: int, pos: nat, offer: Hash, expiresEpoch: int)
  datatype Attested = Attested(id: Hash, height: int, proposal: Hash)

  // The vendored rules the scan rests on: the record parser, the cairnx domain, signature recovery, admission of an
  // offer, and whether a proven fill of mine closed the offer a hold is on before the grant.
  datatype Rules = Rules(parse: (Bytes, Bytes) -> Record, domain: Bytes, recover: Recover, admitted: Event -> bool,
                         closes: (Event, OtherHold, Event, Address, int) -> bool)

  // ---- The window ----

  datatype Item = Item(height: int, pos: nat, tx: Transaction)

  function BlockItems(h: int, body: Body): (items: seq<Item>)
    ensures |items| == |body| && forall pos :: 0 <= pos < |body| ==> items[pos] == Item(h, pos, body[pos])
  {
    seq(|body|, pos requires 0 <= pos < |body| => Item(h, pos, body[pos]))
  }

  // The transactions of n blocks from height `from` on, in mined order.
  function Items(chain: int -> Body, from: int, n: nat): seq<Item> {
    if n == 0 then [] else Items(chain, from, n - 1) + BlockItems(from + n - 1, chain(from + n - 1))
  }

  function From(tip: int): int { Max(0, tip - (MAX_SCAN + MAX_HOLD_SPAN)) }

  function Span(tip: int): nat { Max(0, tip - From(tip) + 1) }

  function Window(chain: int -> Body, tip: int): seq<Item> { Items(chain, From(tip), Span(tip)) }

  lemma {:induction false} ItemsAre(chain: int -> Body, from: int, n: nat, x: Item)
    ensures x in Items(chain, from, n) <==>
      from <= x.height < from + n && x.pos < |chain(x.height)| && x.tx == chain(x.height)[x.pos]
  {
    if n > 0 {
      ItemsAre(chain, from, n - 1, x);
      var items := BlockItems(from + n - 1, chain(from + n - 1));
      if x.height == from + n - 1 && x.pos < |items| { assert items[x.pos] in items; }
    }
  }

  // ---- The scan ----

  datatype Scan = Scan(heightOf: map<Hash, int>, scanned: set<Hash>, lane: set<Hash>, attests: seq<Attested>, others: seq<OtherHold>)

  function Mark(s: Scan, id: Hash, h: int): Scan {
    s.(scanned := s.scanned + {id}, heightOf := if id in s.heightOf then s.heightOf else s.heightOf[id := h])
  }

  function Step(r: Rules, offer: Hash, s: Scan, x: Item): Scan {
    var id := Txid(x.tx);
    match x.tx.app
    case NoApp => s
    case Attest(proposal, _, _) => s.(attests := s.attests + [Attested(id, x.height, proposal)])
    case Propose(domain, payloadHash, uri, expires) =>
      if id == offer then Mark(s, id, x.height)
      else if domain != r.domain then s
      else
        match r.parse(uri, payloadHash)
        case Ocancel => Mark(s, id, x.height)
        case Fclaim(o) =>
          if o == offer then Mark(s.(lane := s.lane + {id}), id, x.height)
          else s.(others := s.others + [OtherHold(id, x.height, x.pos, o, expires)])
        case _ => s
  }

  function FirstPass(r: Rules, offer: Hash, items: seq<Item>): Scan {
    if items == [] then Scan(map[], {}, {offer}, [], [])
    else Step(r, offer, FirstPass(r, offer, items[..|items| - 1]), items[|items| - 1])
  }

  // The second pass keeps the attests on the offer or on a fclaim for it.
  function KeepAttests(s: Scan, n: nat): Scan
    requires n <= |s.attests|
  {
    if n == 0 then s
    else
      var before, a := KeepAttests(s, n - 1), s.attests[n - 1];
      if a.proposal in s.lane then Mark(before, a.id, a.height) else before
  }

  function ScanOf(r: Rules, offer: Hash, items: seq<Item>): Scan {
    var s := FirstPass(r, offer, items);
    KeepAttests(s, |s.attests|)
  }

  // ---- What the scan finds ----

  predicate IsFclaim(r: Rules, offer: Hash, tx: Transaction) {
    && tx.app.Propose? && Txid(tx) != offer && tx.app.domain == r.domain
    && r.parse(tx.app.uri, tx.app.payloadHash) == Fclaim(offer)
  }

  // A fclaim for another offer, and the hold it makes.
  predicate IsOtherFclaim(r: Rules, offer: Hash, tx: Transaction) {
    && tx.app.Propose? && Txid(tx) != offer && tx.app.domain == r.domain
    && r.parse(tx.app.uri, tx.app.payloadHash).Fclaim? && r.parse(tx.app.uri, tx.app.payloadHash).offer != offer
  }

  function HoldOf(r: Rules, offer: Hash, x: Item): OtherHold
    requires IsOtherFclaim(r, offer, x.tx)
  {
    OtherHold(Txid(x.tx), x.height, x.pos, r.parse(x.tx.app.uri, x.tx.app.payloadHash).offer, x.tx.app.expiresEpoch)
  }

  ghost function OtherHolds(r: Rules, offer: Hash, items: seq<Item>): set<OtherHold> {
    set x | x in items && IsOtherFclaim(r, offer, x.tx) :: HoldOf(r, offer, x)
  }

  // A proposal that bears on the offer: the offer itself, a bulk cancel, or a fclaim for it.
  predicate IsLaneProposal(r: Rules, offer: Hash, tx: Transaction) {
    && tx.app.Propose?
    && (Txid(tx) == offer || (tx.app.domain == r.domain && r.parse(tx.app.uri, tx.app.payloadHash) in {Ocancel, Fclaim(offer)}))
  }

  ghost function LaneProposals(r: Rules, offer: Hash, items: seq<Item>): set<Hash> {
    set x | x in items && IsLaneProposal(r, offer, x.tx) :: Txid(x.tx)
  }

  ghost function Fclaims(r: Rules, offer: Hash, items: seq<Item>): set<Hash> {
    set x | x in items && IsFclaim(r, offer, x.tx) :: Txid(x.tx)
  }

  ghost function Attests(items: seq<Item>): set<Attested> {
    set x | x in items && x.tx.app.Attest? :: Attested(Txid(x.tx), x.height, x.tx.app.proposalId)
  }

  // The events of the offer's lane: its proposals, and every attest on the offer or on a fclaim for it, whichever of
  // the two was mined first.
  ghost function LaneEvents(r: Rules, offer: Hash, items: seq<Item>): set<Hash> {
    LaneProposals(r, offer, items)
    + set a | a in Attests(items) && (a.proposal == offer || a.proposal in Fclaims(r, offer, items)) :: a.id
  }

  ghost predicate MinedAt(items: seq<Item>, id: Hash, h: int) { exists x :: x in items && Txid(x.tx) == id && x.height == h }

  ghost predicate HeightsMined(s: Scan, items: seq<Item>) {
    s.heightOf.Keys == s.scanned && forall id :: id in s.heightOf ==> MinedAt(items, id, s.heightOf[id])
  }

  lemma FindsSnoc(r: Rules, offer: Hash, before: seq<Item>, x: Item)
    ensures LaneProposals(r, offer, before + [x]) == LaneProposals(r, offer, before) + if IsLaneProposal(r, offer, x.tx) then {Txid(x.tx)} else {}
    ensures Fclaims(r, offer, before + [x]) == Fclaims(r, offer, before) + if IsFclaim(r, offer, x.tx) then {Txid(x.tx)} else {}
  {
    hide Txid, IsLaneProposal, IsFclaim;
    assert forall y :: y in before + [x] <==> y in before || y == x;
  }

  lemma {:induction false} FirstPassFinds(r: Rules, offer: Hash, items: seq<Item>)
    ensures FirstPass(r, offer, items).scanned == LaneProposals(r, offer, items)
    ensures FirstPass(r, offer, items).lane == {offer} + Fclaims(r, offer, items)
  {
    if items != [] {
      var before, x := items[..|items| - 1], items[|items| - 1];
      FirstPassFinds(r, offer, before);
      assert items == before + [x];
      FindsSnoc(r, offer, before, x);
      hide Txid, LaneProposals, Fclaims;
    }
  }

  lemma AttestsSnoc(before: seq<Item>, x: Item)
    ensures Attests(before + [x]) == Attests(before) + if x.tx.app.Attest? then {Attested(Txid(x.tx), x.height, x.tx.app.proposalId)} else {}
  {
    hide Txid;
    assert forall y :: y in before + [x] <==> y in before || y == x;
  }

  lemma FirstPassSnoc(r: Rules, offer: Hash, items: seq<Item>)
    requires items != []
    ensures var before, x := items[..|items| - 1], items[|items| - 1];
      FirstPass(r, offer, items).attests == FirstPass(r, offer, before).attests
        + if x.tx.app.Attest? then [Attested(Txid(x.tx), x.height, x.tx.app.proposalId)] else []
  {
    hide Txid;
  }

  lemma {:induction false} FirstPassAttests(r: Rules, offer: Hash, items: seq<Item>)
    ensures forall a :: a in FirstPass(r, offer, items).attests <==> a in Attests(items)
  {
    if items != [] {
      var before, x := items[..|items| - 1], items[|items| - 1];
      FirstPassAttests(r, offer, before);
      assert items == before + [x];
      FirstPassSnoc(r, offer, items);
      AttestsSnoc(before, x);
      hide FirstPass, Attests, Txid;
    }
  }

  // The holds the first pass keeps are those of the other offers' fclaims.
  lemma {:induction false} FirstPassOthers(r: Rules, offer: Hash, items: seq<Item>)
    ensures Elems(FirstPass(r, offer, items).others) == OtherHolds(r, offer, items)
  {
    if items != [] {
      var before, x := items[..|items| - 1], items[|items| - 1];
      FirstPassOthers(r, offer, before);
      assert items == before + [x];
      OthersSnoc(r, offer, before, x);
      var s := FirstPass(r, offer, before);
      StepOthers(r, offer, s, x);
      if IsOtherFclaim(r, offer, x.tx) { ElemsSnoc(s.others, HoldOf(r, offer, x)); }
      hide Txid, OtherHolds, Elems, IsOtherFclaim;
    }
  }

  lemma StepOthers(r: Rules, offer: Hash, s: Scan, x: Item)
    ensures Step(r, offer, s, x).others == s.others + if IsOtherFclaim(r, offer, x.tx) then [HoldOf(r, offer, x)] else []
  {
  }

  lemma OthersSnoc(r: Rules, offer: Hash, before: seq<Item>, x: Item)
    ensures OtherHolds(r, offer, before + [x]) == OtherHolds(r, offer, before) + if IsOtherFclaim(r, offer, x.tx) then {HoldOf(r, offer, x)} else {}
  {
    hide Txid;
    assert forall y :: y in before + [x] <==> y in before || y == x;
  }

  ghost function Elems<T>(s: seq<T>): set<T> { set x | x in s }

  lemma ElemsSnoc<T>(s: seq<T>, x: T)
    ensures Elems(s + [x]) == Elems(s) + {x}
  {
  }

  lemma {:induction false} KeepLeavesOthers(s: Scan, n: nat)
    requires n <= |s.attests|
    ensures KeepAttests(s, n).others == s.others && KeepAttests(s, n).attests == s.attests
  {
    if n > 0 { KeepLeavesOthers(s, n - 1); }
  }

  // The scan keeps exactly the holds of other offers, each as it was mined, and exactly the attests.
  lemma ScanFindsOthers(r: Rules, offer: Hash, items: seq<Item>)
    ensures Elems(ScanOf(r, offer, items).others) == OtherHolds(r, offer, items)
    ensures Elems(ScanOf(r, offer, items).attests) == Attests(items)
  {
    var s := FirstPass(r, offer, items);
    FirstPassOthers(r, offer, items);
    FirstPassAttests(r, offer, items);
    KeepLeavesOthers(s, |s.attests|);
    hide FirstPass, OtherHolds, Attests;
  }

  // The window is wide enough: a hold names an epoch at most two past its own, so while the grant's own hold lasts at the
  // tip, whatever other hold was mined anywhere up to the tip and is live at the grant is among the holds the window finds.
  lemma LiveHoldsAreInWindow(r: Rules, mined: int -> Body, offer: Hash, tip: int, grant: int, grantEpoch: int, x: Item)
    requires grant / 30 <= tip / 30 <= grantEpoch <= grant / 30 + 2
    requires 0 <= x.height <= tip && x.pos < |mined(x.height)| && x.tx == mined(x.height)[x.pos] && IsOtherFclaim(r, offer, x.tx)
    requires var c := HoldOf(r, offer, x); grant / 30 <= c.expiresEpoch <= x.height / 30 + 2
    ensures HoldOf(r, offer, x) in OtherHolds(r, offer, Window(mined, tip))
  {
    assert x.height >= tip - 223 && From(tip) <= x.height < From(tip) + Span(tip);
    ItemsAre(mined, From(tip), Span(tip), x);
  }

  lemma MarkMined(s: Scan, items: seq<Item>, id: Hash, h: int)
    requires HeightsMined(s, items) && MinedAt(items, id, h)
    ensures HeightsMined(Mark(s, id, h), items)
  {
  }

  lemma MinedGrows(items: seq<Item>, x: Item, s: Scan)
    requires HeightsMined(s, items)
    ensures HeightsMined(s, items + [x])
  {
    forall id | id in s.heightOf ensures MinedAt(items + [x], id, s.heightOf[id]) {
      var y :| y in items && Txid(y.tx) == id && y.height == s.heightOf[id];
      assert y in items + [x];
    }
  }

  lemma {:induction false} FirstPassMined(r: Rules, offer: Hash, items: seq<Item>)
    ensures HeightsMined(FirstPass(r, offer, items), items)
  {
    if items != [] {
      var before, x := items[..|items| - 1], items[|items| - 1];
      FirstPassMined(r, offer, before);
      assert items == before + [x];
      MinedGrows(before, x, FirstPass(r, offer, before));
      assert x in items;
      assert MinedAt(items, Txid(x.tx), x.height);
    }
  }

  lemma {:induction false} KeepMined(s: Scan, items: seq<Item>, n: nat)
    requires n <= |s.attests| && HeightsMined(s, items)
    requires forall a :: a in s.attests ==> MinedAt(items, a.id, a.height)
    ensures HeightsMined(KeepAttests(s, n), items)
  {
    hide MinedAt;
    if n > 0 {
      KeepMined(s, items, n - 1);
      MarkMined(KeepAttests(s, n - 1), items, s.attests[n - 1].id, s.attests[n - 1].height);
    }
  }

  lemma {:induction false} KeepFinds(s: Scan, n: nat)
    requires n <= |s.attests|
    ensures KeepAttests(s, n).scanned == s.scanned + set a | a in s.attests[..n] && a.proposal in s.lane :: a.id
  {
    if n > 0 {
      KeepFinds(s, n - 1);
      var a, kept := s.attests[n - 1], s.attests[..n - 1];
      assert s.attests[..n] == kept + [a];
      assert forall b :: b in s.attests[..n] <==> b in kept || b == a;
    }
  }

  // The scan finds exactly the lane's events, each at a height it was mined at.
  lemma ScanFindsTheLane(r: Rules, offer: Hash, items: seq<Item>)
    ensures ScanOf(r, offer, items).scanned == LaneEvents(r, offer, items)
    ensures HeightsMined(ScanOf(r, offer, items), items)
  {
    var s := FirstPass(r, offer, items);
    FirstPassFinds(r, offer, items);
    FirstPassAttests(r, offer, items);
    FirstPassMined(r, offer, items);
    forall a | a in s.attests ensures MinedAt(items, a.id, a.height) {
      assert a in Attests(items);
    }
    KeepMined(s, items, |s.attests|);
    KeepFinds(s, |s.attests|);
    assert s.attests[..|s.attests|] == s.attests;
    assert forall a :: a in s.attests <==> a in Attests(items);
  }

  // ---- Two bodies for one root scan alike ----

  ghost predicate SameItems(a: seq<Item>, b: seq<Item>) {
    |a| == |b| && forall i :: 0 <= i < |a| ==>
      a[i].height == b[i].height && a[i].pos == b[i].pos && SameButSignatures(a[i].tx, b[i].tx, Zero)
  }

  lemma {:induction false} FirstPassSame(r: Rules, offer: Hash, a: seq<Item>, b: seq<Item>)
    requires SameItems(a, b)
    ensures FirstPass(r, offer, a) == FirstPass(r, offer, b)
  {
    if a != [] {
      FirstPassSame(r, offer, a[..|a| - 1], b[..|b| - 1]);
      StrippedEqual(a[|a| - 1].tx, b[|b| - 1].tx, Zero);
    }
  }

  lemma {:induction false} ItemsSame(c: int -> Body, d: int -> Body, from: int, n: nat)
    requires forall h :: from <= h < from + n ==> SameBody(c(h), d(h))
    ensures SameItems(Items(c, from, n), Items(d, from, n))
  {
    if n > 0 {
      ItemsSame(c, d, from, n - 1);
      var h := from + n - 1;
      assert SameBody(c(h), d(h));
    }
  }

  // ---- What a node may answer ----

  // One node's answers: block bodies, the transaction a proof of an event asks for, and (when a second source is
  // given) the height of an offer. Bodies are kept per height and proofs per event, so each is asked once.
  datatype Provider = Provider(bodies: int -> Option<Body>, spent: (Hash, int) -> Option<Transaction>, offerHeights: Option<Hash -> Option<int>>)

  // The merkle roots of the verified headers.
  type Roots = int -> Option<Hash>

  // The body of block `h` if the node's answer binds to its verified root; the source throws otherwise.
  function Served(p: Provider, roots: Roots, h: int): Option<Body> {
    var body, root := p.bodies(h), roots(h);
    if body.Some? && root.Some? && Binds(body.value, root.value) then body else None
  }

  function ServedChain(p: Provider, roots: Roots): int -> Body {
    h => if Served(p, roots, h).Some? then Served(p, roots, h).value else []
  }

  // `mined` is the chain the verified headers commit to.
  ghost predicate Commits(roots: Roots, mined: int -> Body) {
    forall h :: roots(h).Some? ==> Binds(mined(h), roots(h).value)
  }

  lemma ServedIsMined(p: Provider, roots: Roots, mined: int -> Body, h: int)
    requires Commits(roots, mined) && Served(p, roots, h).Some?
    ensures SameBody(Served(p, roots, h).value, mined(h)) && Ids(Served(p, roots, h).value) == Ids(mined(h))
  {
    BoundIsMined(p.bodies(h).value, mined(h), roots(h).value);
  }

  ghost predicate WindowServed(p: Provider, roots: Roots, tip: int) {
    forall h :: From(tip) <= h < From(tip) + Span(tip) ==> Served(p, roots, h).Some?
  }

  lemma WindowScansAlike(r: Rules, offer: Hash, p: Provider, roots: Roots, mined: int -> Body, tip: int)
    requires Commits(roots, mined) && WindowServed(p, roots, tip)
    ensures ScanOf(r, offer, Window(ServedChain(p, roots), tip)) == ScanOf(r, offer, Window(mined, tip))
  {
    var served := ServedChain(p, roots);
    forall h | From(tip) <= h < From(tip) + Span(tip) ensures SameBody(served(h), mined(h)) {
      ServedIsMined(p, roots, mined, h);
    }
    ItemsSame(served, mined, From(tip), Span(tip));
    FirstPassSame(r, offer, Window(served, tip), Window(mined, tip));
  }

  // ---- Proving an event ----

  datatype Proof = Threw | NoEvent | Proven(event: Event)

  function IndexOf(ids: seq<Hash>, id: Hash): (r: Option<nat>)
    ensures r.Some? <==> id in ids
    ensures r.Some? ==> r.value < |ids| && ids[r.value] == id
  {
    if ids == [] then None
    else if ids[0] == id then Some(0)
    else
      var rest := IndexOf(ids[1..], id);
      if rest.Some? then Some(rest.value + 1) else None
  }

  function Prove(r: Rules, p: Provider, roots: Roots, id: Hash, h: int): Proof {
    var body := Served(p, roots, h);
    if body.None? then Threw
    else
      var pos := IndexOf(Ids(body.value), id);
      if pos.None? then NoEvent
      else
        var tx := body.value[pos.value];
        var bound := BindSigner(tx, p.spent(id, h), r.recover);
        if bound.Signer? && !tx.app.NoApp? then Proven(Event(id, h, pos.value, bound.who)) else NoEvent
  }

  // The event the mined chain holds under an id at a height.
  function TrueEvent(mined: int -> Body, id: Hash, h: int): Option<Event> {
    var pos := IndexOf(Ids(mined(h)), id);
    if pos.Some? && AuthorOf(id).Some? && !mined(h)[pos.value].app.NoApp?
    then Some(Event(id, h, pos.value, AuthorOf(id).value)) else None
  }

  lemma ProvenIsTrue(r: Rules, p: Provider, roots: Roots, mined: int -> Body, id: Hash, h: int)
    requires Commits(roots, mined) && Prove(r, p, roots, id, h).Proven?
    ensures TrueEvent(mined, id, h) == Some(Prove(r, p, roots, id, h).event)
  {
    ServedIsMined(p, roots, mined, h);
    var body := Served(p, roots, h).value;
    var pos := IndexOf(Ids(body), id).value;
    BoundAuthorIsTheAuthor(body[pos], p.spent(id, h), r.recover);
    assert SameButSignatures(body[pos], mined(h)[pos], Zero);
  }

  // ---- The buyer's other holds live at the grant ----

  datatype Target = Target(id: Hash, height: int, pos: nat, offer: Hash)
  datatype Held = Held(hold: OtherHold, proposer: Address)

  predicate Counts(x: Held, t: Target, me: Address, closed: set<Hash>) {
    && x.hold.id != t.id && x.hold.id !in closed && x.proposer == me
    && (x.hold.height < t.height || (x.hold.height == t.height && x.hold.pos < t.pos))
    && HoldEnd(x.hold.expiresEpoch) >= t.height && x.hold.offer != t.offer
  }

  // The hold is another's offer's, made before the grant and lasting to its epoch.
  predicate HeldAt(c: OtherHold, t: Target) {
    && c.id != t.id && c.offer != t.offer && t.height / 30 <= c.expiresEpoch
    && if c.height == t.height then c.pos < t.pos else c.height < t.height
  }

  lemma CountsIff(x: Held, t: Target, me: Address, closed: set<Hash>)
    ensures Counts(x, t, me, closed) <==> HeldAt(x.hold, t) && x.proposer == me && x.hold.id !in closed
  {
    HoldLastsThroughEpoch(x.hold.expiresEpoch, t.height);
  }

  ghost function CountedOffers(held: seq<Held>, t: Target, me: Address, closed: set<Hash>): set<Hash> {
    set x | x in held && Counts(x, t, me, closed) :: x.hold.offer
  }

  lemma CountedIs(held: seq<Held>, t: Target, me: Address, closed: set<Hash>)
    ensures CountedOffers(held, t, me, closed)
         == set x | x in held && HeldAt(x.hold, t) && x.proposer == me && x.hold.id !in closed :: x.hold.offer
  {
    forall x | x in held ensures Counts(x, t, me, closed) <==> HeldAt(x.hold, t) && x.proposer == me && x.hold.id !in closed {
      CountsIff(x, t, me, closed);
    }
    hide Counts, HeldAt;
  }

  // countOtherHoldsAtGrant: the distinct offers they are on.
  method CountOtherHoldsAtGrant(held: seq<Held>, t: Target, me: Address, closed: set<Hash>) returns (r: Result<nat, string>)
    ensures r.Ok? <==> t.height >= LEGACY_HOLD_SUNSET_HEIGHT
    ensures r.Ok? ==> r.value == |CountedOffers(held, t, me, closed)|
    ensures r.Ok? ==> r.value == |set x | x in held && HeldAt(x.hold, t) && x.proposer == me && x.hold.id !in closed :: x.hold.offer|
  {
    CountedIs(held, t, me, closed);
    if t.height < LEGACY_HOLD_SUNSET_HEIGHT { return Err("granted while legacy claims could still count"); }
    var offers: set<Hash> := {};
    for i := 0 to |held|
      invariant offers == CountedOffers(held[..i], t, me, closed)
    {
      assert held[..i + 1] == held[..i] + [held[i]];
      if Counts(held[i], t, me, closed) { offers := offers + {held[i].hold.offer}; }
    }
    assert held[..|held|] == held;
    r := Ok(|offers|);
  }

  // The in-window holds on other offers, as far as they last to the grant.
  function LiveOthers(others: seq<OtherHold>, grant: int): seq<OtherHold> {
    if others == [] then []
    else
      var rest, c := LiveOthers(others[..|others| - 1], grant), others[|others| - 1];
      if HoldEnd(c.expiresEpoch) >= grant then rest + [c] else rest
  }

  lemma {:induction false} LiveIff(others: seq<OtherHold>, grant: int, c: OtherHold)
    ensures c in LiveOthers(others, grant) <==> c in others && grant / 30 <= c.expiresEpoch
  {
    if others != [] {
      var init, last := others[..|others| - 1], others[|others| - 1];
      LiveIff(init, grant, c);
      HoldLastsThroughEpoch(last.expiresEpoch, grant);
      assert others == init + [last];
    }
  }

  // A hold is attributed to its bound author, and to me when its author cannot be bound.
  function Attributed(r: Rules, p: Provider, roots: Roots, me: Address, c: OtherHold): Held {
    var proof := Prove(r, p, roots, c.id, c.height);
    Held(c, if proof.Proven? then proof.event.author else me)
  }

  function HeldBy(r: Rules, p: Provider, roots: Roots, me: Address, live: seq<OtherHold>): seq<Held> {
    seq(|live|, i requires 0 <= i < |live| => Attributed(r, p, roots, me, live[i]))
  }

  // The recovered signer of an attest's served transaction is me; nothing is read for this.
  predicate SignerIsMe(r: Rules, p: Provider, roots: Roots, me: Address, a: Attested) {
    var body := Served(p, roots, a.height);
    body.Some? &&
    var pos := IndexOf(Ids(body.value), a.id);
    pos.Some? && RecoverSigner(body.value[pos.value], r.recover) == Some(me)
  }

  // The fill `a` of mine is proven to have closed the offer hold `c` is on.
  predicate ClosedBy(r: Rules, p: Provider, roots: Roots, me: Address, grant: int, c: OtherHold, a: Attested) {
    && a.proposal == c.id && SignerIsMe(r, p, roots, me, a) && p.offerHeights.Some?
    && var oh := p.offerHeights.value(c.offer);
    oh.Some? &&
    var offer, fill := Prove(r, p, roots, c.offer, oh.value), Prove(r, p, roots, a.id, a.height);
    offer.Proven? && fill.Proven? && r.closes(fill.event, c, offer.event, me, grant)
  }

  predicate ProvenClosed(r: Rules, p: Provider, roots: Roots, me: Address, grant: int, attests: seq<Attested>, c: OtherHold) {
    exists a :: a in attests && ClosedBy(r, p, roots, me, grant, c, a)
  }

  ghost function ClosedIds(r: Rules, p: Provider, roots: Roots, me: Address, grant: int, attests: seq<Attested>, live: seq<OtherHold>): set<Hash> {
    set c | c in live && Attributed(r, p, roots, me, c).proposer == me && ProvenClosed(r, p, roots, me, grant, attests, c) :: c.id
  }

  // The count a scan reports: the plain one, and one without the proven-closed holds when the plain one would refuse.
  ghost function HoldCount(r: Rules, p: Provider, roots: Roots, me: Address, t: Target, s: Scan): nat {
    var live := LiveOthers(s.others, t.height);
    var held := HeldBy(r, p, roots, me, live);
    var raw := |CountedOffers(held, t, me, {})|;
    if raw >= MAX_ACTIVE_CLAIMS && p.offerHeights.Some?
    then |CountedOffers(held, t, me, ClosedIds(r, p, roots, me, t.height, s.attests, live))|
    else raw
  }

  // ---- The count is never too low ----

  ghost predicate TrulyClosed(r: Rules, mined: int -> Body, me: Address, grant: int, attests: set<Attested>, c: OtherHold) {
    exists a, oh, offer, fill :: a in attests && a.proposal == c.id
      && TrueEvent(mined, c.offer, oh) == Some(offer) && TrueEvent(mined, a.id, a.height) == Some(fill)
      && r.closes(fill, c, offer, me, grant)
  }

  // The offers my holds at the grant are truly on, those left out that my own mined fills closed.
  ghost function TrueOpenOffers(r: Rules, mined: int -> Body, me: Address, t: Target, holds: set<OtherHold>, attests: set<Attested>): set<Hash> {
    set c | c in holds && AuthorOf(c.id) == Some(me) && HeldAt(c, t) && TrulyOpen(r, mined, me, t, holds, attests, c.id) :: c.offer
  }

  ghost predicate TrulyOpen(r: Rules, mined: int -> Body, me: Address, t: Target, holds: set<OtherHold>, attests: set<Attested>, id: Hash) {
    forall d :: d in holds && d.id == id && t.height / 30 <= d.expiresEpoch ==> !TrulyClosed(r, mined, me, t.height, attests, d)
  }

  lemma SubsetSize<T>(a: set<T>, b: set<T>)
    requires a <= b
    ensures |a| <= |b|
  {
    assert b == a + (b - a);
  }

  lemma TrueHoldIsMine(r: Rules, p: Provider, roots: Roots, mined: int -> Body, me: Address, c: OtherHold)
    requires Commits(roots, mined) && AuthorOf(c.id) == Some(me)
    ensures Attributed(r, p, roots, me, c) == Held(c, me)
  {
    if Prove(r, p, roots, c.id, c.height).Proven? { ProvenIsTrue(r, p, roots, mined, c.id, c.height); }
  }

  lemma ProvenClosedIsTrue(r: Rules, p: Provider, roots: Roots, mined: int -> Body, me: Address, grant: int, attests: seq<Attested>, c: OtherHold)
    requires Commits(roots, mined) && ProvenClosed(r, p, roots, me, grant, attests, c)
    ensures TrulyClosed(r, mined, me, grant, Elems(attests), c)
  {
    var a :| a in attests && ClosedBy(r, p, roots, me, grant, c, a);
    var oh := p.offerHeights.value(c.offer).value;
    ProvenIsTrue(r, p, roots, mined, c.offer, oh);
    ProvenIsTrue(r, p, roots, mined, a.id, a.height);
  }

  // Whatever the node and the second source answer, the reported count is at least the number of other offers my
  // open holds are on at the grant.
  lemma CountCoversMyHolds(r: Rules, p: Provider, roots: Roots, mined: int -> Body, me: Address, t: Target, s: Scan)
    requires Commits(roots, mined)
    ensures HoldCount(r, p, roots, me, t, s) >= |TrueOpenOffers(r, mined, me, t, Elems(s.others), Elems(s.attests))|
  {
    hide TrulyClosed, HeldAt, Counts, Attributed, ProvenClosed;
    var live := LiveOthers(s.others, t.height);
    var held, closed := HeldBy(r, p, roots, me, live), ClosedIds(r, p, roots, me, t.height, s.attests, live);
    var holds, attests := Elems(s.others), Elems(s.attests);
    var open := TrueOpenOffers(r, mined, me, t, holds, attests);
    forall o | o in open ensures o in CountedOffers(held, t, me, closed) && o in CountedOffers(held, t, me, {}) {
      var c :| c in holds && AuthorOf(c.id) == Some(me) && HeldAt(c, t) && c.offer == o && TrulyOpen(r, mined, me, t, holds, attests, c.id);
      HeldIsLive(s.others, t, c);
      TrueHoldIsMine(r, p, roots, mined, me, c);
      var i :| 0 <= i < |live| && live[i] == c;
      assert held[i] == Held(c, me) && held[i] in held;
      if c.id in closed {
        var d :| d in live && ProvenClosed(r, p, roots, me, t.height, s.attests, d) && d.id == c.id;
        LiveIff(s.others, t.height, d);
        ProvenClosedIsTrue(r, p, roots, mined, me, t.height, s.attests, d);
      }
      CountsIff(held[i], t, me, closed);
      CountsIff(held[i], t, me, {});
    }
    SubsetSize(open, CountedOffers(held, t, me, closed));
    SubsetSize(open, CountedOffers(held, t, me, {}));
  }

  lemma HeldIsLive(others: seq<OtherHold>, t: Target, c: OtherHold)
    requires c in others && HeldAt(c, t)
    ensures c in LiveOthers(others, t.height)
  {
    LiveIff(others, t.height, c);
  }

  // The count a scan reports, hold by hold: the other offers held at the grant that are mine or cannot be bound, without
  // those a fill of mine is proven to have closed when they would reach the cap.
  ghost function MineOrUnbound(r: Rules, p: Provider, roots: Roots, me: Address, t: Target, holds: set<OtherHold>, closed: set<Hash>): set<Hash> {
    set c | c in holds && HeldAt(c, t) && c.id !in closed && OwnerOrMe(r, p, roots, me, c) == me :: c.offer
  }

  ghost function OwnerOrMe(r: Rules, p: Provider, roots: Roots, me: Address, c: OtherHold): Address {
    match Prove(r, p, roots, c.id, c.height)
    case Proven(e) => e.author
    case _ => me
  }

  ghost function ProvenClosedIds(r: Rules, p: Provider, roots: Roots, me: Address, t: Target, holds: set<OtherHold>, attests: seq<Attested>): set<Hash> {
    set d | d in holds && t.height / 30 <= d.expiresEpoch && OwnerOrMe(r, p, roots, me, d) == me
            && ProvenClosed(r, p, roots, me, t.height, attests, d) :: d.id
  }

  lemma CountedOf(r: Rules, p: Provider, roots: Roots, me: Address, t: Target, others: seq<OtherHold>, closed: set<Hash>)
    ensures CountedOffers(HeldBy(r, p, roots, me, LiveOthers(others, t.height)), t, me, closed)
         == MineOrUnbound(r, p, roots, me, t, Elems(others), closed)
  {
    hide HeldAt, Counts, Attributed, OwnerOrMe, LiveOthers;
    var live := LiveOthers(others, t.height);
    var held := HeldBy(r, p, roots, me, live);
    forall x | x in held && Counts(x, t, me, closed)
      ensures x.hold in others && HeldAt(x.hold, t) && x.hold.id !in closed && OwnerOrMe(r, p, roots, me, x.hold) == me
    {
      var i :| 0 <= i < |held| && held[i] == x;
      AttributedIs(r, p, roots, me, live[i]);
      LiveIff(others, t.height, live[i]);
      CountsIff(x, t, me, closed);
    }
    forall c | c in others && HeldAt(c, t) && c.id !in closed && OwnerOrMe(r, p, roots, me, c) == me
      ensures Attributed(r, p, roots, me, c) in held && Counts(Attributed(r, p, roots, me, c), t, me, closed) && Attributed(r, p, roots, me, c).hold == c
    {
      HeldIsLive(others, t, c);
      AttributedIs(r, p, roots, me, c);
      CountsIff(Attributed(r, p, roots, me, c), t, me, closed);
      var i :| 0 <= i < |live| && live[i] == c;
      assert held[i] == Attributed(r, p, roots, me, c);
    }
  }

  lemma AttributedIs(r: Rules, p: Provider, roots: Roots, me: Address, c: OtherHold)
    ensures Attributed(r, p, roots, me, c) == Held(c, OwnerOrMe(r, p, roots, me, c))
  {
  }

  lemma ClosedIdsAre(r: Rules, p: Provider, roots: Roots, me: Address, t: Target, s: Scan)
    ensures ClosedIds(r, p, roots, me, t.height, s.attests, LiveOthers(s.others, t.height))
         == ProvenClosedIds(r, p, roots, me, t, Elems(s.others), s.attests)
  {
    hide LiveOthers, ProvenClosed, Attributed, OwnerOrMe;
    forall d ensures d in LiveOthers(s.others, t.height) <==> d in s.others && t.height / 30 <= d.expiresEpoch { LiveIff(s.others, t.height, d); }
    forall d ensures Attributed(r, p, roots, me, d).proposer == OwnerOrMe(r, p, roots, me, d) { AttributedIs(r, p, roots, me, d); }
  }

  lemma HoldCountIs(r: Rules, p: Provider, roots: Roots, me: Address, t: Target, s: Scan)
    ensures var holds := Elems(s.others);
            var raw := MineOrUnbound(r, p, roots, me, t, holds, {});
            var open := MineOrUnbound(r, p, roots, me, t, holds, ProvenClosedIds(r, p, roots, me, t, holds, s.attests));
      HoldCount(r, p, roots, me, t, s) == if |raw| < MAX_ACTIVE_CLAIMS || p.offerHeights.None? then |raw| else |open|
  {
    CountedOf(r, p, roots, me, t, s.others, {});
    ClosedIdsAre(r, p, roots, me, t, s);
    CountedOf(r, p, roots, me, t, s.others, ProvenClosedIds(r, p, roots, me, t, Elems(s.others), s.attests));
    hide CountedOffers, MineOrUnbound, ProvenClosedIds, ClosedIds, HeldBy, LiveOthers, Elems;
  }

  // ---- The source itself ----

  datatype Hints = Hints(offer: Hash, fclaim: Hash, me: Address, offerHeight: int)

  datatype FillIo = FillIo(ids: set<Hash>, events: map<Hash, Event>, holds: nat)

  // Every block of the window, fetched and bound. The pool's order does not matter: each height is kept on its own.
  method BindWindow(p: Provider, roots: Roots, tip: int) returns (memo: Option<map<int, Body>>)
    ensures memo.Some? <==> WindowServed(p, roots, tip)
    ensures memo.Some? ==> forall h :: From(tip) <= h < From(tip) + Span(tip) ==> h in memo.value && memo.value[h] == ServedChain(p, roots)(h)
  {
    var m: map<int, Body> := map[];
    for i := 0 to Span(tip)
      invariant forall h :: From(tip) <= h < From(tip) + i ==> Served(p, roots, h).Some?
      invariant forall h :: From(tip) <= h < From(tip) + i ==> h in m && m[h] == ServedChain(p, roots)(h)
    {
      var h := From(tip) + i;
      var body, root := p.bodies(h), roots(h);
      if body.None? || root.None? {
        assert Served(p, roots, h).None?;
        return None;
      }
      var bound := BindBlockTxs(body.value, root.value);
      if !bound.Bound? {
        assert Served(p, roots, h).None?;
        return None;
      }
      m := m[h := bound.txs];
    }
    memo := Some(m);
  }

  // Both passes over the bound window, in mined order.
  method ScanWindow(r: Rules, offer: Hash, memo: map<int, Body>, ghost chain: int -> Body, tip: int) returns (s: Scan)
    requires forall h :: From(tip) <= h < From(tip) + Span(tip) ==> h in memo && memo[h] == chain(h)
    ensures s == ScanOf(r, offer, Window(chain, tip))
  {
    s := Scan(map[], {}, {offer}, [], []);
    ghost var items: seq<Item> := [];
    for n := 0 to Span(tip)
      invariant items == Items(chain, From(tip), n) && s == FirstPass(r, offer, items)
    {
      var h := From(tip) + n;
      var body := memo[h];
      ghost var before, block := items, BlockItems(h, body);
      for pos := 0 to |body|
        invariant items == before + block[..pos] && s == FirstPass(r, offer, items)
      {
        ghost var longer := items + [block[pos]];
        assert longer[..|longer| - 1] == items;
        assert before + block[..pos + 1] == longer;
        s := Step(r, offer, s, Item(h, pos, body[pos]));
        items := longer;
      }
      assert block[..|body|] == block;
    }
    var first := s;
    for n := 0 to |first.attests|
      invariant s == KeepAttests(first, n) && s.attests == first.attests && s.lane == first.lane
    {
      var a := s.attests[n];
      if a.proposal in s.lane { s := Mark(s, a.id, a.height); }
    }
  }

  // Every scanned event proven now; one that cannot be is a suppression and fails the source.
  method ProveScanned(r: Rules, p: Provider, roots: Roots, s: Scan) returns (events: Option<map<Hash, Event>>)
    requires s.heightOf.Keys == s.scanned
    ensures events.Some? <==> forall id :: id in s.scanned ==> Prove(r, p, roots, id, s.heightOf[id]).Proven?
    ensures events.Some? ==> events.value.Keys == s.scanned
    ensures events.Some? ==> forall id :: id in s.scanned ==> Prove(r, p, roots, id, s.heightOf[id]) == Proven(events.value[id])
  {
    var left, found: map<Hash, Event> := s.scanned, map[];
    while left != {}
      invariant left <= s.scanned && found.Keys == s.scanned - left
      invariant forall id :: id in found ==> Prove(r, p, roots, id, s.heightOf[id]) == Proven(found[id])
      decreases |left|
    {
      var id :| id in left;
      var proof := Prove(r, p, roots, id, s.heightOf[id]);
      if !proof.Proven? { return None; }
      left := left - {id};
      found := found[id := proof.event];
    }
    events := Some(found);
  }

  method CountHolds(r: Rules, p: Provider, roots: Roots, me: Address, t: Target, s: Scan) returns (count: Result<nat, string>)
    ensures count.Ok? <==> t.height >= LEGACY_HOLD_SUNSET_HEIGHT
    ensures count.Ok? ==> count.value == HoldCount(r, p, roots, me, t, s)
  {
    var live := LiveOthers(s.others, t.height);
    var held := HeldBy(r, p, roots, me, live);
    count := CountOtherHoldsAtGrant(held, t, me, {});
    if count.Err? || count.value < MAX_ACTIVE_CLAIMS || p.offerHeights.None? { return; }
    var closed: set<Hash> := {};
    for i := 0 to |live|
      invariant closed == ClosedIds(r, p, roots, me, t.height, s.attests, live[..i])
    {
      assert live[..i + 1] == live[..i] + [live[i]];
      if held[i].proposer == me {
        var done := IsProvenClosed(r, p, roots, me, t.height, s.attests, live[i]);
        if done { closed := closed + {live[i].id}; }
      }
    }
    assert live[..|live|] == live;
    count := CountOtherHoldsAtGrant(held, t, me, closed);
  }

  method IsProvenClosed(r: Rules, p: Provider, roots: Roots, me: Address, grant: int, attests: seq<Attested>, c: OtherHold) returns (closed: bool)
    ensures closed == ProvenClosed(r, p, roots, me, grant, attests, c)
  {
    hide ClosedBy;
    for i := 0 to |attests|
      invariant forall a :: a in attests[..i] ==> !ClosedBy(r, p, roots, me, grant, c, a)
    {
      assert attests[..i + 1] == attests[..i] + [attests[i]];
      if ClosedBy(r, p, roots, me, grant, c, attests[i]) {
        assert attests[i] in attests;
        return true;
      }
    }
    assert attests[..|attests|] == attests;
    closed := false;
  }

  // The height a lane event is proven at: its mined one in the window, else, for an older offer, the hinted one.
  function HeightOf(s: Scan, hints: Hints, id: Hash): int { if id in s.heightOf then s.heightOf[id] else hints.offerHeight }

  // The evidence is the lane's: exactly its events, each the one the mined chain holds.
  ghost predicate IsEvidence(r: Rules, mined: int -> Body, tip: int, hints: Hints, io: FillIo) {
    var items := Window(mined, tip);
    && io.ids == LaneEvents(r, hints.offer, items) + {hints.offer}
    && io.events.Keys == io.ids
    && forall id :: id in io.ids ==> TrueEvent(mined, id, HeightOf(ScanOf(r, hints.offer, items), hints, id)) == Some(io.events[id])
  }

  // The grant as the chain has it: the fclaim at its position in the block at `h`.
  function GrantOf(mined: int -> Body, hints: Hints, h: int): Target {
    var pos := IndexOf(Ids(mined(h)), hints.fclaim);
    Target(hints.fclaim, h, if pos.Some? then pos.value else 0, hints.offer)
  }

  // The hold count is taken at the fclaim's mined height and position.
  ghost predicate CountsAtGrant(r: Rules, p: Provider, roots: Roots, mined: int -> Body, tip: int, hints: Hints, io: FillIo) {
    var s := ScanOf(r, hints.offer, Window(mined, tip));
    && hints.fclaim in s.heightOf
    && var h := s.heightOf[hints.fclaim];
    && hints.fclaim in Ids(mined(h))
    && h >= LEGACY_HOLD_SUNSET_HEIGHT
    && io.holds == HoldCount(r, p, roots, hints.me, GrantOf(mined, hints, h), s)
  }

  // It counts the offers of the other fclaims mined in the window, held at the grant, that are mine or cannot be bound.
  ghost predicate CountsMinedHolds(r: Rules, p: Provider, roots: Roots, mined: int -> Body, tip: int, hints: Hints, io: FillIo) {
    var items := Window(mined, tip);
    var s := ScanOf(r, hints.offer, items);
    hints.fclaim in s.heightOf &&
    var t, holds := GrantOf(mined, hints, s.heightOf[hints.fclaim]), OtherHolds(r, hints.offer, items);
    var raw := MineOrUnbound(r, p, roots, hints.me, t, holds, {});
    var open := MineOrUnbound(r, p, roots, hints.me, t, holds, ProvenClosedIds(r, p, roots, hints.me, t, holds, s.attests));
    io.holds == if |raw| < MAX_ACTIVE_CLAIMS || p.offerHeights.None? then |raw| else |open|
  }

  // Every condition a source that returns has met.
  ghost predicate Accepts(r: Rules, p: Provider, roots: Roots, tip: int, hints: Hints) {
    WindowServed(p, roots, tip) &&
    var s := ScanOf(r, hints.offer, Window(ServedChain(p, roots), tip));
    && s.heightOf.Keys == s.scanned && hints.fclaim in s.scanned
    && var grant := s.heightOf[hints.fclaim];
    && grant >= 60_044
    && Served(p, roots, grant).Some? && hints.fclaim in Ids(Served(p, roots, grant).value)
    && (forall id :: id in s.scanned ==> Prove(r, p, roots, id, s.heightOf[id]).Proven?)
    && var proof := Prove(r, p, roots, hints.offer, HeightOf(s, hints, hints.offer));
    && proof.Proven? && r.admitted(proof.event)
  }

  // The reported count covers every other offer my open holds, mined in the window, are truly on at the grant.
  ghost predicate CoversMyHolds(r: Rules, mined: int -> Body, tip: int, hints: Hints, io: FillIo) {
    var items := Window(mined, tip);
    var s := ScanOf(r, hints.offer, items);
    hints.fclaim in s.heightOf &&
    var t := GrantOf(mined, hints, s.heightOf[hints.fclaim]);
    io.holds >= |TrueOpenOffers(r, mined, hints.me, t, OtherHolds(r, hints.offer, items), Attests(items))|
  }

  // liveFillSpvSource. On success the lane's ids and events are the ones the verified headers commit to, and the count
  // covers my holds, whatever the node answered.
  method LiveFill(r: Rules, p: Provider, roots: Roots, tip: int, hints: Hints, ghost mined: int -> Body) returns (io: Result<FillIo, string>)
    requires Commits(roots, mined)
    ensures io.Ok? <==> Accepts(r, p, roots, tip, hints)
    ensures io.Ok? ==> IsEvidence(r, mined, tip, hints, io.value) && CountsAtGrant(r, p, roots, mined, tip, hints, io.value)
    ensures io.Ok? ==> CoversMyHolds(r, mined, tip, hints, io.value) && CountsMinedHolds(r, p, roots, mined, tip, hints, io.value)
  {
    hide WindowServed, Window, ScanOf, LaneEvents, Prove, TrueEvent, HoldCount, Commits, MinedAt, Binds, TrueOpenOffers, MineOrUnbound, ProvenClosedIds, OtherHolds, Attests, Elems;
    var memo := BindWindow(p, roots, tip);
    if memo.None? { return Err("a block of the window does not bind"); }
    var s := ScanWindow(r, hints.offer, memo.value, ServedChain(p, roots), tip);
    WindowScansAlike(r, hints.offer, p, roots, mined, tip);
    ScanFindsTheLane(r, hints.offer, Window(mined, tip));
    if hints.fclaim !in s.scanned { return Err("the fclaim being filled was not merkle-proven in the scan window"); }
    var grant := s.heightOf[hints.fclaim];
    var body := Served(p, roots, grant);
    if body.None? { return Err("the fclaim being filled has no position in its proven block"); }
    ServedIsMined(p, roots, mined, grant);
    var pos := IndexOf(Ids(body.value), hints.fclaim);
    if pos.None? { return Err("the fclaim being filled has no position in its proven block"); }
    var t := Target(hints.fclaim, grant, pos.value, hints.offer);
    var count := CountHolds(r, p, roots, hints.me, t, s);
    if count.Err? { return Err(count.error); }
    var scanned := ProveScanned(r, p, roots, s);
    if scanned.None? { return Err("a lane event could not be authorship-bound"); }
    var proof := Prove(r, p, roots, hints.offer, HeightOf(s, hints, hints.offer));
    if !proof.Proven? { return Err("the offer could not be merkle-proven"); }
    if !r.admitted(proof.event) { return Err("the offer is not admitted"); }
    var events := scanned.value[hints.offer := proof.event];
    forall id | id in events ensures TrueEvent(mined, id, HeightOf(s, hints, id)) == Some(events[id]) {
      ProvenIsTrue(r, p, roots, mined, id, HeightOf(s, hints, id));
    }
    CountCoversMyHolds(r, p, roots, mined, hints.me, t, s);
    HoldCountIs(r, p, roots, hints.me, t, s);
    ScanFindsOthers(r, hints.offer, Window(mined, tip));
    io := Ok(FillIo(s.scanned + {hints.offer}, events, count.value));
  }

  // So two sources that both succeed over one chain, with one offer height, agree on every lane event.
  lemma EvidenceIsFixed(r: Rules, mined: int -> Body, tip: int, hints: Hints, a: FillIo, b: FillIo)
    requires IsEvidence(r, mined, tip, hints, a) && IsEvidence(r, mined, tip, hints, b)
    ensures a.ids == b.ids && a.events == b.events
  {
    hide ScanOf, Window, TrueEvent, HeightOf;
    forall id | id in a.ids ensures a.events[id] == b.events[id] {
      assert id in b.ids;
    }
  }
}
