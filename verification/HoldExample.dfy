// A chain on which one withheld answer lowers the reported count. Three holds are live at the grant: two of mine, each with
// a fill that closed its offer, and one of another's. A node that does not show the coin the third one spends has it
// counted as mine, which lifts the plain count to the cap and has my two taken out.

module HoldExample {
  import opened Base
  import opened Transactions
  import opened Blocks
  import opened FillScan
  import opened HoldCounts

  const MINE: Address := [1, 1, 1, 1, 1, 1, 1, 1, 1, 1, 1, 1, 1, 1, 1, 1, 1, 1, 1, 1]
  const THEIRS: Address := [2, 2, 2, 2, 2, 2, 2, 2, 2, 2, 2, 2, 2, 2, 2, 2, 2, 2, 2, 2]
  const SELLER: Address := [3, 3, 3, 3, 3, 3, 3, 3, 3, 3, 3, 3, 3, 3, 3, 3, 3, 3, 3, 3]

  const TIP := 100_000
  const OFFERS_AT := 99_000      // before the window
  const FCLAIMS_AT := 99_950
  const FILLS_AT := 99_960
  const GRANT_AT := 99_990
  const V29_HEIGHT := 88_000
  const SCORE_FILL: nat := 100
  const PRICE: nat := 50

  // ---- Its transactions ----

  function Coin(n: Byte, owner: Address): Transaction { Tx(1, [Input(Zero, NO_VOUT, [n])], [Output(1_000, owner)], 0, NoApp) }

  // Input 0 spends the n-th coin; a signature is written as the signer's address.
  function Spend(n: Byte, owner: Address, outputs: seq<Output>, app: App<Hash>): Transaction {
    Tx(1, [Input(TxHash(Coin(n, owner)), 0, owner)], outputs, 0, app)
  }

  type Number = n: nat | n < 4

  function Offer(k: Number): Transaction { Spend(k, SELLER, [], Propose([7], [], [k], 10_000)) }

  function Claimant(k: Number): Address { if k == 3 then THEIRS else MINE }

  function Fclaim(k: Number): Transaction { Spend(10 + k, Claimant(k), [], Propose([7], [], [10 + k], 3_333)) }

  function Fill(k: Number): Transaction { Spend(20 + k, MINE, [Output(PRICE, SELLER)], Attest(Txid(Fclaim(k)), SCORE_FILL, 0)) }

  function Mined(h: int): Body {
    if h == OFFERS_AT then [Offer(0), Offer(1), Offer(2), Offer(3)]
    else if h == FCLAIMS_AT then [Fclaim(1), Fclaim(2), Fclaim(3)]
    else if h == FILLS_AT then [Fill(1), Fill(2)]
    else if h == GRANT_AT then [Fclaim(0)]
    else []
  }

  // ---- Its rules, headers and honest node ----

  function Parse(uri: Bytes, payloadHash: Bytes): Record {
    if |uri| == 1 && 10 <= uri[0] < 14 then FillScan.Fclaim(Txid(Offer(uri[0] - 10)))
    else if |uri| == 1 && uri[0] < 4 then OtherRecord
    else NoRecord
  }

  predicate IsOffer(e: Event) { e.id.TxHash? && e.id.stripped.app.Propose? && Parse(e.id.stripped.app.uri, []) == OtherRecord }

  // My fill of the hold, mined between the hold and the grant, that pays the seller of the offer the hold is on.
  predicate Closes(fill: Event, c: OtherHold, offer: Event, me: Address, grant: int) {
    && grant >= V29_HEIGHT && c.height < fill.height < grant && fill.author == me
    && fill.id.TxHash? && fill.id.stripped.app.Attest? && fill.id.stripped.app.score == SCORE_FILL && fill.id.stripped.app.proposalId == c.id
    && offer.id == c.offer && IsOffer(offer) && Output(PRICE, offer.author) in fill.id.stripped.outputs
  }

  function ItsRules(): Rules {
    Rules(Parse, [7], (sig: Bytes, tx: Transaction) => if |sig| == 20 then Some(sig) else None, IsOffer, Closes)
  }

  function ItsRoots(): Roots { h => Some(Root(Ids(Mined(h)))) }

  function SpentBy(id: Hash, h: int): Option<Transaction> {
    if id.TxHash? && id.stripped.inputs != [] && id.stripped.inputs[0].prevTxid.TxHash?
    then Some(id.stripped.inputs[0].prevTxid.stripped) else None
  }

  function OfferHeight(o: Hash): Option<int> {
    if o.TxHash? && o.stripped.app.Propose? && Parse(o.stripped.app.uri, []) == OtherRecord then Some(OFFERS_AT) else None
  }

  function HonestNode(): Provider { Provider(h => Some(Mined(h)), SpentBy, Some(OfferHeight)) }

  function ItsHints(): Hints { Hints(Txid(Offer(0)), Txid(Fclaim(0)), MINE, OFFERS_AT) }

  function Hold(k: Number): OtherHold { OtherHold(Txid(Fclaim(k)), FCLAIMS_AT, if k == 0 then 0 else k - 1, Txid(Offer(k)), 3_333) }

  function FillAt(k: Number): Attested { Attested(Txid(Fill(k)), FILLS_AT, Txid(Fclaim(k))) }

  // The grant, and what the scan of the window finds.
  function TheGrant(): Grant { Grant(ItsRules(), ItsRoots(), Mined, MINE, Target(Txid(Fclaim(0)), GRANT_AT, 0, Txid(Offer(0))), ItsScan()) }

  function ItsScan(): Scan {
    Scan(map[Txid(Fclaim(0)) := GRANT_AT], {Txid(Fclaim(0))}, {Txid(Offer(0)), Txid(Fclaim(0))}, [FillAt(1), FillAt(2)], [Hold(1), Hold(2), Hold(3)])
  }

  // ---- Ids ----

  lemma Keeps(tx: Transaction)
    ensures Txid(tx).stripped.app == tx.app && Txid(tx).stripped.outputs == tx.outputs
    ensures |Txid(tx).stripped.inputs| == |tx.inputs|
    ensures forall i :: 0 <= i < |tx.inputs| ==> Txid(tx).stripped.inputs[i] == StripInput(tx.inputs[i], Zero)
  {
  }

  lemma IdsDiffer(j: Number, k: Number)
    ensures Txid(Offer(j)) != Txid(Fclaim(k)) && Txid(Offer(j)) != Txid(Fill(k)) && Txid(Fclaim(j)) != Txid(Fill(k))
    ensures j != k ==> Txid(Offer(j)) != Txid(Offer(k)) && Txid(Fclaim(j)) != Txid(Fclaim(k)) && Txid(Fill(j)) != Txid(Fill(k))
  {
    Keeps(Offer(j));
    Keeps(Offer(k));
    Keeps(Fclaim(j));
    Keeps(Fclaim(k));
    Keeps(Fill(j));
    Keeps(Fill(k));
    hide Txid, Coin;
    assert Offer(j).app.uri == [j as Byte] && Offer(k).app.uri == [k as Byte] && Fclaim(j).app.uri == [10 + j] && Fclaim(k).app.uri == [10 + k];
    assert [j as Byte][0] == j && [k as Byte][0] == k && [(10 + j) as Byte][0] == 10 + j && [(10 + k) as Byte][0] == 10 + k;
    if j != k && Txid(Fclaim(j)) != Txid(Fclaim(k)) { assert Fill(j).app != Fill(k).app; }
  }

  lemma OffersDistinct()
    ensures Distinct(Ids([Offer(0), Offer(1), Offer(2), Offer(3)]))
  {
    hide Txid, Offer, Fclaim, Fill;
    IdsDiffer(0, 1);
    IdsDiffer(0, 2);
    IdsDiffer(0, 3);
    IdsDiffer(1, 2);
    IdsDiffer(1, 3);
    IdsDiffer(2, 3);
    assert Ids([Offer(0), Offer(1), Offer(2), Offer(3)]) == [Txid(Offer(0)), Txid(Offer(1)), Txid(Offer(2)), Txid(Offer(3))];
  }

  lemma FclaimsDistinct()
    ensures Distinct(Ids([Fclaim(1), Fclaim(2), Fclaim(3)]))
  {
    hide Txid, Offer, Fclaim, Fill;
    IdsDiffer(1, 2);
    IdsDiffer(1, 3);
    IdsDiffer(2, 3);
    assert Ids([Fclaim(1), Fclaim(2), Fclaim(3)]) == [Txid(Fclaim(1)), Txid(Fclaim(2)), Txid(Fclaim(3))];
  }

  lemma MinedDistinct(h: int)
    ensures Distinct(Ids(Mined(h)))
  {
    hide Txid, Offer, Fclaim, Fill;
    if h == OFFERS_AT {
      OffersDistinct();
    } else if h == FCLAIMS_AT {
      FclaimsDistinct();
    } else if h == FILLS_AT {
      IdsDiffer(1, 2);
      assert Ids([Fill(1), Fill(2)]) == [Txid(Fill(1)), Txid(Fill(2))];
    }
  }

  // ---- Authors ----

  ghost predicate IsSpend(tx: Transaction, n: Byte, owner: Address) {
    |owner| == 20 && tx == Spend(n, owner, tx.outputs, tx.app) && !tx.app.NoApp?
  }

  lemma SpendAuthor(tx: Transaction, n: Byte, owner: Address)
    requires IsSpend(tx, n, owner)
    ensures AuthorOf(Txid(tx)) == Some(owner) && BindSigner(tx, SpentBy(Txid(tx), 0), ItsRules().recover) == Signer(owner)
  {
    Keeps(tx);
    Keeps(Coin(n, owner));
    assert Stripped(Coin(n, owner), Zero) == Coin(n, owner);
    assert SpentBy(Txid(tx), 0) == Some(Coin(n, owner));
  }

  lemma MinedIsSpent(h: int, i: nat) returns (n: Byte, owner: Address)
    requires i < |Mined(h)|
    ensures IsSpend(Mined(h)[i], n, owner)
    ensures owner == if h == OFFERS_AT then SELLER else if h == FCLAIMS_AT && i == 2 then THEIRS else MINE
  {
    hide Coin, Txid;
    owner := if h == OFFERS_AT then SELLER else if h == FCLAIMS_AT && i == 2 then THEIRS else MINE;
    n := if h == OFFERS_AT then i else if h == FCLAIMS_AT then 11 + i else if h == FILLS_AT then 21 + i else 10;
  }

  lemma HonestProof(h: int, i: nat)
    requires i < |Mined(h)|
    ensures IndexOf(Ids(Mined(h)), Txid(Mined(h)[i])) == Some(i)
    ensures Prove(ItsRules(), HonestNode(), ItsRoots(), Txid(Mined(h)[i]), h).Proven?
    ensures AuthorOf(Txid(Mined(h)[i])) == Some(if h == OFFERS_AT then SELLER else if h == FCLAIMS_AT && i == 2 then THEIRS else MINE)
    ensures !Mined(h)[i].app.NoApp?
  {
    var n, owner := MinedIsSpent(h, i);
    SpendAuthor(Mined(h)[i], n, owner);
    MinedDistinct(h);
    hide Txid, Root, BindSigner, Mined;
    assert Ids(Mined(h))[i] == Txid(Mined(h)[i]);
    assert Served(HonestNode(), ItsRoots(), h) == Some(Mined(h));
  }

  lemma ItIsHonest()
    ensures Commits(ItsRoots(), Mined) && Honest(TheGrant(), HonestNode())
  {
    forall h ensures Binds(Mined(h), ItsRoots()(h).value) { MinedDistinct(h); }
    hide Mined, Prove, HonestNode, ItsRules, Txid, Root, ScanOf, GrantOf;
    forall id, h | id in Ids(Mined(h)) ensures Prove(ItsRules(), HonestNode(), ItsRoots(), id, h).Proven? {
      var i :| 0 <= i < |Mined(h)| && Ids(Mined(h))[i] == id;
      HonestProof(h, i);
    }
  }

  // ---- The scan ----

  lemma {:induction false} EmptyBlocks(from: int, m: nat, n: nat)
    requires m <= n && forall h :: from + m <= h < from + n ==> Mined(h) == []
    ensures Items(Mined, from, n) == Items(Mined, from, m)
  {
    if m < n {
      EmptyBlocks(from, m, n - 1);
      assert BlockItems(from + n - 1, Mined(from + n - 1)) == [];
    }
  }

  function TheItems(): seq<Item> {
    [Item(FCLAIMS_AT, 0, Fclaim(1)), Item(FCLAIMS_AT, 1, Fclaim(2)), Item(FCLAIMS_AT, 2, Fclaim(3)),
     Item(FILLS_AT, 0, Fill(1)), Item(FILLS_AT, 1, Fill(2)), Item(GRANT_AT, 0, Fclaim(0))]
  }

  lemma TheWindow()
    ensures From(TIP) == 99_777 && Span(TIP) == 224 && Window(Mined, TIP) == TheItems()
  {
    hide Items, Fclaim, Fill, Offer;
    var from := 99_777;
    EmptyBlocks(from, 0, 173);
    EmptyBlocks(from, 174, 183);
    EmptyBlocks(from, 184, 213);
    EmptyBlocks(from, 214, 224);
    ItemsNone(from);
    ItemsSnoc(from, 173);
    ItemsSnoc(from, 183);
    ItemsSnoc(from, 213);
    var claims := [Item(FCLAIMS_AT, 0, Fclaim(1)), Item(FCLAIMS_AT, 1, Fclaim(2)), Item(FCLAIMS_AT, 2, Fclaim(3))];
    assert BlockItems(FCLAIMS_AT, Mined(FCLAIMS_AT)) == claims;
    assert BlockItems(FILLS_AT, Mined(FILLS_AT)) == [Item(FILLS_AT, 0, Fill(1)), Item(FILLS_AT, 1, Fill(2))];
    assert BlockItems(GRANT_AT, Mined(GRANT_AT)) == [Item(GRANT_AT, 0, Fclaim(0))];
  }

  lemma ItemsNone(from: int)
    ensures Items(Mined, from, 0) == []
  {
  }

  lemma ItemsSnoc(from: int, n: nat)
    ensures Items(Mined, from, n + 1) == Items(Mined, from, n) + BlockItems(from + n, Mined(from + n))
  {
  }

  lemma FirstPassSnoc(items: seq<Item>, x: Item)
    ensures FirstPass(ItsRules(), Txid(Offer(0)), items + [x]) == Step(ItsRules(), Txid(Offer(0)), FirstPass(ItsRules(), Txid(Offer(0)), items), x)
  {
    assert (items + [x])[..|items|] == items;
  }

  lemma StepFclaim(s: Scan, k: Number, h: int, pos: nat)
    ensures Step(ItsRules(), Txid(Offer(0)), s, Item(h, pos, Fclaim(k))) ==
      if k == 0 then Mark(s.(lane := s.lane + {Txid(Fclaim(0))}), Txid(Fclaim(0)), h)
      else s.(others := s.others + [OtherHold(Txid(Fclaim(k)), h, pos, Txid(Offer(k)), 3_333)])
  {
    IdsDiffer(0, k);
    hide Txid, Coin;
    assert Parse([10 + k], []) == FillScan.Fclaim(Txid(Offer(k)));
  }

  lemma StepFill(s: Scan, k: Number, h: int, pos: nat)
    ensures Step(ItsRules(), Txid(Offer(0)), s, Item(h, pos, Fill(k))) == s.(attests := s.attests + [Attested(Txid(Fill(k)), h, Txid(Fclaim(k)))])
  {
    hide Txid, Coin;
  }

  lemma TheScan()
    ensures ScanOf(ItsRules(), Txid(Offer(0)), Window(Mined, TIP)) == ItsScan()
  {
    TheWindow();
    var items, offer := TheItems(), Txid(Offer(0));
    IdsDiffer(0, 1);
    IdsDiffer(0, 2);
    ScanSteps();
    hide Window, Txid, Offer, Fclaim, Fill, ItsRules, FirstPass;
    var s := FirstPass(ItsRules(), offer, items);
    assert s.attests[0] == FillAt(1) && s.attests[1] == FillAt(2);
    assert KeepAttests(s, 0) == s;
    assert KeepAttests(s, 1) == s;
    assert KeepAttests(s, 2) == s;
  }

  function NoLane(others: seq<OtherHold>, attests: seq<Attested>): Scan { Scan(map[], {}, {Txid(Offer(0))}, attests, others) }

  ghost predicate Passes(items: seq<Item>, s: Scan) { FirstPass(ItsRules(), Txid(Offer(0)), items) == s }

  lemma NothingPassed()
    ensures Passes([], NoLane([], []))
  {
  }

  lemma PassOn(items: seq<Item>, s: Scan, x: Item, t: Scan)
    requires Passes(items, s) && Step(ItsRules(), Txid(Offer(0)), s, x) == t
    ensures Passes(items + [x], t)
  {
    FirstPassSnoc(items, x);
  }

  lemma ClaimsPassed()
    ensures Passes(TheItems()[..3], NoLane([Hold(1), Hold(2), Hold(3)], []))
  {
    hide Passes, Step, Txid, Offer, Fclaim, Fill, ItsRules;
    var x := TheItems();
    NothingPassed();
    StepFclaim(NoLane([], []), 1, FCLAIMS_AT, 0);
    PassOn([], NoLane([], []), x[0], NoLane([Hold(1)], []));
    StepFclaim(NoLane([Hold(1)], []), 2, FCLAIMS_AT, 1);
    PassOn([] + [x[0]], NoLane([Hold(1)], []), x[1], NoLane([Hold(1), Hold(2)], []));
    StepFclaim(NoLane([Hold(1), Hold(2)], []), 3, FCLAIMS_AT, 2);
    PassOn([] + [x[0]] + [x[1]], NoLane([Hold(1), Hold(2)], []), x[2], NoLane([Hold(1), Hold(2), Hold(3)], []));
    assert [] + [x[0]] + [x[1]] + [x[2]] == x[..3];
  }

  lemma ScanSteps()
    ensures FirstPass(ItsRules(), Txid(Offer(0)), TheItems()) == ItsScan()
  {
    ClaimsPassed();
    FillsPassed(TheItems()[..3]);
    assert TheItems()[..3] + [TheItems()[3]] + [TheItems()[4]] + [TheItems()[5]] == TheItems();
  }

  lemma FillsPassed(items: seq<Item>)
    requires Passes(items, NoLane([Hold(1), Hold(2), Hold(3)], []))
    ensures Passes(items + [TheItems()[3]] + [TheItems()[4]] + [TheItems()[5]], ItsScan())
  {
    hide Passes, Step, Txid, Offer, Fclaim, Fill, ItsRules, Hold;
    var x, holds := TheItems(), [Hold(1), Hold(2), Hold(3)];
    StepFill(NoLane(holds, []), 1, FILLS_AT, 0);
    PassOn(items, NoLane(holds, []), x[3], NoLane(holds, [FillAt(1)]));
    StepFill(NoLane(holds, [FillAt(1)]), 2, FILLS_AT, 1);
    PassOn(items + [x[3]], NoLane(holds, [FillAt(1)]), x[4], NoLane(holds, [FillAt(1), FillAt(2)]));
    var s := NoLane(holds, [FillAt(1), FillAt(2)]);
    StepFclaim(s, 0, GRANT_AT, 0);
    assert Mark(s.(lane := s.lane + {Txid(Fclaim(0))}), Txid(Fclaim(0)), GRANT_AT) == ItsScan();
    PassOn(items + [x[3]] + [x[4]], s, x[5], ItsScan());
  }

  // ---- The counts ----

  lemma TheGrantIs()
    ensures GrantIn(ItsRules(), ItsRoots(), Mined, TIP, ItsHints()) == TheGrant()
  {
    TheScan();
    HonestProof(GRANT_AT, 0);
    assert Mined(GRANT_AT)[0] == Fclaim(0);
    hide ScanOf, Window, Txid, Prove, Fclaim, Offer, Mined, ItsRules, IndexOf;
  }

  lemma AllLive()
    ensures Live(TheGrant()) == [Hold(1), Hold(2), Hold(3)]
  {
    hide Txid, Fclaim, Offer, ItsRules, ItsRoots;
    var c := [Hold(1), Hold(2), Hold(3)];
    assert c[..2] == [Hold(1), Hold(2)] && c[..2][..1] == [Hold(1)] && c[..2][..1][..0] == [];
    assert LiveOthers([], GRANT_AT) == [];
    assert LiveOthers(c[..2][..1], GRANT_AT) == [Hold(1)];
    assert LiveOthers(c[..2], GRANT_AT) == c[..2];
    assert LiveOthers(c, GRANT_AT) == c;
  }

  // A mined transaction's event.
  lemma TrueAt(h: int, i: nat, owner: Address)
    requires i < |Mined(h)| && owner == if h == OFFERS_AT then SELLER else if h == FCLAIMS_AT && i == 2 then THEIRS else MINE
    ensures AuthorOf(Txid(Mined(h)[i])) == Some(owner)
    ensures TrueEvent(Mined, Txid(Mined(h)[i]), h) == Some(Event(Txid(Mined(h)[i]), h, i, owner))
  {
    HonestProof(h, i);
    hide Prove, Txid, Mined, AuthorOf;
  }

  lemma OfferEvent(k: Number)
    ensures TrueEvent(Mined, Txid(Offer(k)), OFFERS_AT) == Some(Event(Txid(Offer(k)), OFFERS_AT, k, SELLER))
  {
    TrueAt(OFFERS_AT, k, SELLER);
    hide TrueEvent, Txid, Offer;
    assert Mined(OFFERS_AT)[k] == Offer(k);
  }

  lemma HoldEvent(k: Number)
    requires k > 0
    ensures AuthorOf(Txid(Fclaim(k))) == Some(Claimant(k)) && TrueEvent(Mined, Txid(Fclaim(k)), FCLAIMS_AT).Some?
  {
    TrueAt(FCLAIMS_AT, k - 1, Claimant(k));
    hide TrueEvent, Txid, AuthorOf, Fclaim;
    assert Mined(FCLAIMS_AT)[k - 1] == Fclaim(k);
  }

  lemma FillEvent(k: Number)
    requires 1 <= k <= 2
    ensures TrueEvent(Mined, Txid(Fill(k)), FILLS_AT) == Some(Event(Txid(Fill(k)), FILLS_AT, k - 1, MINE))
  {
    TrueAt(FILLS_AT, k - 1, MINE);
    hide TrueEvent, Txid, Fill;
    assert Mined(FILLS_AT)[k - 1] == Fill(k);
  }

  // Hiding the third hold hides nothing else.
  lemma OnlyTheThird(hidden: set<OtherHold>, id: Hash, h: int)
    requires hidden <= {Hold(3)}
    ensures Hides(hidden, id, h) ==> Hold(3) in hidden && id == Txid(Fclaim(3)) && h == FCLAIMS_AT
    ensures Hold(3) in hidden ==> Hides(hidden, Txid(Fclaim(3)), FCLAIMS_AT)
  {
    hide Txid, Fclaim, Offer;
  }

  lemma ShownOffer(hidden: set<OtherHold>, k: Number)
    requires hidden <= {Hold(3)}
    ensures Shown(TheGrant(), hidden, Txid(Offer(k)), OFFERS_AT) == Some(Event(Txid(Offer(k)), OFFERS_AT, k, SELLER))
    ensures OfferHeight(Txid(Offer(k))) == Some(OFFERS_AT) && IsOffer(Event(Txid(Offer(k)), OFFERS_AT, k, SELLER))
  {
    OfferEvent(k);
    OnlyTheThird(hidden, Txid(Offer(k)), OFFERS_AT);
    Keeps(Offer(k));
    assert Offer(k).app.uri == [k as Byte];
    hide Txid, TrueEvent, Hides, ItsScan;
  }

  lemma ShownFill(hidden: set<OtherHold>, k: Number)
    requires hidden <= {Hold(3)} && 1 <= k <= 2
    ensures Shown(TheGrant(), hidden, Txid(Fill(k)), FILLS_AT) == Some(Event(Txid(Fill(k)), FILLS_AT, k - 1, MINE))
    ensures Closes(Event(Txid(Fill(k)), FILLS_AT, k - 1, MINE), Hold(k), Event(Txid(Offer(k)), OFFERS_AT, k, SELLER), MINE, GRANT_AT)
  {
    FillEvent(k);
    ShownOffer(hidden, k);
    OnlyTheThird(hidden, Txid(Fill(k)), FILLS_AT);
    Keeps(Fill(k));
    assert Fill(k).outputs[0] == Output(PRICE, SELLER);
    hide Txid, TrueEvent, Hides, ItsScan, IsOffer;
  }

  lemma FilledIsClosed(hidden: set<OtherHold>, k: Number)
    requires hidden <= {Hold(3)} && 1 <= k <= 2
    ensures ShownClosed(TheGrant(), OfferHeight, hidden, Hold(k))
  {
    hide Txid, Shown, IsOffer, Closes, OfferHeight, ItsRoots, Mined, Fclaim, Offer, Fill;
    ShownOffer(hidden, k);
    ShownFill(hidden, k);
    var g := TheGrant();
    assert g.s.attests[k - 1] == FillAt(k);
    assert FillCloses(g, hidden, Hold(k), Event(Txid(Offer(k)), OFFERS_AT, k, SELLER), FillAt(k));
  }

  lemma UnfilledIsOpen(hidden: set<OtherHold>)
    ensures !ShownClosed(TheGrant(), OfferHeight, hidden, Hold(3))
  {
    IdsDiffer(1, 3);
    IdsDiffer(2, 3);
    hide Txid, Shown, ItsRules, ItsRoots, Mined, OfferHeight, Fclaim, Offer, Fill;
  }

  lemma WhoseHold(hidden: set<OtherHold>, k: Number)
    requires hidden <= {Hold(3)} && k > 0
    ensures Hold(k) in Mine(TheGrant(), hidden) <==> k < 3 || Hold(3) in hidden
    ensures Counted(TheGrant(), Hold(k)) && (k == 3 ==> Hold(k) in Others(TheGrant()))
  {
    AllLive();
    HoldEvent(k);
    OnlyTheThird(hidden, Txid(Fclaim(k)), FCLAIMS_AT);
    IdsDiffer(k, 0);
    IdsDiffer(k, 3);
    hide Txid, Hides, AuthorOf, Fclaim, Offer, ItsRules, ItsRoots, Mined, ItsScan, Live;
    var live := Live(TheGrant());
    assert live[k - 1] == Hold(k) && live[k - 1] in live;
  }

  lemma WhoseHolds(hidden: set<OtherHold>)
    requires hidden == {} || hidden == {Hold(3)}
    ensures Mine(TheGrant(), hidden) == {Hold(1), Hold(2)} + hidden
  {
    hide Live, Mine, TheGrant, Hold, Counted, Others;
    AllLive();
    MineIsLive(TheGrant(), hidden);
    WhoseHold(hidden, 1);
    WhoseHold(hidden, 2);
    WhoseHold(hidden, 3);
  }

  lemma HoldIdsDiffer(j: Number, k: Number)
    ensures Hold(j).id == Hold(k).id <==> j == k
  {
    IdsDiffer(j, k);
    hide Txid, Fclaim, Offer;
  }

  // A hold with an id of its own stays open unless it is itself shown closed.
  lemma OwnIdOpen(g: Grant, heights: Hash -> Option<int>, hidden: set<OtherHold>, c: OtherHold)
    requires c in Mine(g, hidden) && forall d :: d in Mine(g, hidden) && d.id == c.id ==> d == c
    ensures StaysOpen(g, heights, hidden, c) <==> !ShownClosed(g, heights, hidden, c)
  {
    hide Mine, ShownClosed;
  }

  lemma StaysOpenIff(hidden: set<OtherHold>, k: Number)
    requires (hidden == {} || hidden == {Hold(3)}) && k > 0 && Hold(k) in Mine(TheGrant(), hidden)
    ensures StaysOpen(TheGrant(), OfferHeight, hidden, Hold(k)) <==> k == 3
  {
    hide Mine, TheGrant, ShownClosed, StaysOpen, Hold, OfferHeight;
    WhoseHolds(hidden);
    HoldIdsDiffer(1, k);
    HoldIdsDiffer(2, k);
    HoldIdsDiffer(3, k);
    OwnIdOpen(TheGrant(), OfferHeight, hidden, Hold(k));
    if k < 3 { FilledIsClosed(hidden, k); } else { UnfilledIsOpen(hidden); }
  }

  function OffersOn(holds: set<OtherHold>): set<Hash> { set c | c in holds :: c.offer }

  lemma RawIs(g: Grant, hidden: set<OtherHold>)
    requires forall c :: c in Mine(g, hidden) ==> Counted(g, c)
    ensures RawOf(g, hidden) == OffersOn(Mine(g, hidden))
  {
    hide Mine, Counted;
  }

  lemma OpenIs(g: Grant, heights: Hash -> Option<int>, hidden: set<OtherHold>)
    requires hidden <= Mine(g, hidden)
    requires forall c :: c in Mine(g, hidden) ==> Counted(g, c) && (StaysOpen(g, heights, hidden, c) <==> c in hidden)
    ensures OpenOf(g, heights, hidden) == OffersOn(hidden)
  {
    hide Mine, Counted, StaysOpen;
  }

  lemma StaysOpenHidden(hidden: set<OtherHold>)
    requires hidden == {} || hidden == {Hold(3)}
    ensures forall c :: c in Mine(TheGrant(), hidden) ==> (StaysOpen(TheGrant(), OfferHeight, hidden, c) <==> c in hidden)
  {
    hide Hold, TheGrant, Mine, StaysOpen, OfferHeight;
    WhoseHolds(hidden);
    HoldIdsDiffer(1, 3);
    HoldIdsDiffer(2, 3);
    StaysOpenIff(hidden, 1);
    StaysOpenIff(hidden, 2);
    if hidden != {} { StaysOpenIff(hidden, 3); }
  }

  lemma CountedMine(hidden: set<OtherHold>)
    requires hidden == {} || hidden == {Hold(3)}
    ensures forall c :: c in Mine(TheGrant(), hidden) ==> Counted(TheGrant(), c)
  {
    hide Hold, TheGrant, Mine, Counted, Others;
    WhoseHolds(hidden);
    WhoseHold(hidden, 1);
    WhoseHold(hidden, 2);
    WhoseHold(hidden, 3);
  }

  lemma OffersOf(hidden: set<OtherHold>)
    requires hidden == {} || hidden == {Hold(3)}
    ensures RawOf(TheGrant(), hidden) == OffersOn({Hold(1), Hold(2)} + hidden)
    ensures OpenOf(TheGrant(), OfferHeight, hidden) == OffersOn(hidden)
  {
    hide TheGrant, Counted, Mine, Hold, StaysOpen, RawOf, OpenOf, OfferHeight, OffersOn;
    WhoseHolds(hidden);
    StaysOpenHidden(hidden);
    CountedMine(hidden);
    RawIs(TheGrant(), hidden);
    OpenIs(TheGrant(), OfferHeight, hidden);
  }

  // ---- The result ----

  lemma ItIsMined()
    ensures AllMined(TheGrant())
  {
    AllLive();
    HoldEvent(1);
    HoldEvent(2);
    HoldEvent(3);
    hide Txid, TrueEvent, AuthorOf, Fclaim, Offer, ItsRules, Mined, ItsScan, Live;
  }

  lemma ShownCountIs(hidden: set<OtherHold>)
    requires hidden == {} || hidden == {Hold(3)}
    ensures Count(TheGrant(), Hiding(HonestNode(), hidden)) == CountOn(TheGrant(), Some(OfferHeight), hidden)
  {
    ItIsHonest();
    ItIsMined();
    HidingShows(TheGrant(), HonestNode(), hidden);
    ShownCounts(TheGrant(), Hiding(HonestNode(), hidden), hidden);
    CountIs(TheGrant(), Hiding(HonestNode(), hidden));
    hide TheGrant, Honest, AllMined, Shows, RawOf, OpenOf, RawOffers, OpenOffers, Commits, OfferHeight, Mined;
  }

  lemma ThreeOffers(a: OtherHold, b: OtherHold, c: OtherHold)
    requires a.offer != b.offer && b.offer != c.offer && a.offer != c.offer
    ensures |OffersOn({})| == 0 && |OffersOn({c})| == 1 && |OffersOn({a, b})| == 2 && |OffersOn({a, b} + {c})| == 3
  {
    assert OffersOn({}) == {};
    assert OffersOn({c}) == {c.offer};
    assert OffersOn({a, b}) == {a.offer, b.offer};
    assert OffersOn({a, b} + {c}) == {a.offer, b.offer, c.offer};
  }

  lemma HoldOffer(k: Number)
    ensures Hold(k).offer == Txid(Offer(k))
  {
  }

  lemma Sizes(hidden: set<OtherHold>)
    requires hidden == {} || hidden == {Hold(3)}
    ensures |OffersOn(hidden)| == |hidden| && |OffersOn({Hold(1), Hold(2)} + hidden)| == 2 + |hidden|
  {
    hide Txid, Offer, Hold, OffersOn;
    IdsDiffer(1, 2);
    IdsDiffer(1, 3);
    IdsDiffer(2, 3);
    HoldOffer(1);
    HoldOffer(2);
    HoldOffer(3);
    ThreeOffers(Hold(1), Hold(2), Hold(3));
    if hidden == {} { assert {Hold(1), Hold(2)} + hidden == {Hold(1), Hold(2)}; }
  }

  lemma SizesOf(hidden: set<OtherHold>)
    requires hidden == {} || hidden == {Hold(3)}
    ensures |RawOf(TheGrant(), hidden)| == 2 + |hidden| && |OpenOf(TheGrant(), OfferHeight, hidden)| == |hidden|
  {
    OffersOf(hidden);
    Sizes(hidden);
    hide RawOf, OpenOf, TheGrant, Hold, OffersOn, OfferHeight;
  }

  lemma CountIsTwoOrOne(hidden: set<OtherHold>)
    requires hidden == {} || hidden == {Hold(3)}
    ensures Count(TheGrant(), Hiding(HonestNode(), hidden)) == if hidden == {} then 2 else 1
  {
    ShownCountIs(hidden);
    SizesOf(hidden);
    hide RawOf, OpenOf, TheGrant, Hold, OfferHeight, Count, Hiding;
  }

  lemma ItsHonestCount()
    ensures Count(TheGrant(), HonestNode()) == 2
  {
    ItIsHonest();
    ItIsMined();
    HonestCount(TheGrant(), HonestNode());
    SizesOf({});
    hide Honest, AllMined, RawOf, OpenOf, TheGrant, Hold, OfferHeight, Count, Commits, Mined, ItsRoots;
  }

  lemma ItCanBeLowered()
    ensures CanBeLowered(TheGrant(), Some(OfferHeight))
  {
    hide RawOf, OpenOf, TheGrant, Hold, OfferHeight, Others, Counted, Mine, LiftsToLess;
    SizesOf({});
    WhoseHold({}, 3);
    LiftedBy({Hold(3)});
    assert {Hold(3)} <= Others(TheGrant());
  }

  lemma LiftedBy(hidden: set<OtherHold>)
    requires hidden == {Hold(3)}
    ensures LiftsToLess(TheGrant(), OfferHeight, hidden)
  {
    hide RawOf, OpenOf, TheGrant, Hold, OfferHeight;
    SizesOf({});
    SizesOf(hidden);
  }

  // The honest node has two counted; withholding the coin the other's hold spends makes it one.
  lemma HidingLowersTheCount()
    ensures var g, q := GrantIn(ItsRules(), ItsRoots(), Mined, TIP, ItsHints()), HonestNode();
      && Commits(ItsRoots(), Mined) && Honest(g, q)
      && Count(g, q) == 2 && Count(g, Hiding(q, {Hold(3)})) == 1 && CanBeLowered(g, q.offerHeights)
  {
    TheGrantIs();
    ItIsHonest();
    ItsHonestCount();
    CountIsTwoOrOne({Hold(3)});
    ItCanBeLowered();
    hide TheGrant, GrantIn, Honest, Commits, OfferHeight, Mined, Hold, CanBeLowered, Count, Hiding, ItsRules, ItsRoots;
  }

  lemma AllServed(hidden: set<OtherHold>)
    ensures forall h :: Served(Hiding(HonestNode(), hidden), ItsRoots(), h) == Some(Mined(h))
  {
    forall h ensures Served(Hiding(HonestNode(), hidden), ItsRoots(), h) == Some(Mined(h)) {
      MinedDistinct(h);
      hide Txid, Mined, Root;
    }
  }

  lemma ShownStill(hidden: set<OtherHold>, h: int, i: nat)
    requires hidden <= {Hold(3)} && i < |Mined(h)| && h != FCLAIMS_AT
    ensures Prove(ItsRules(), Hiding(HonestNode(), hidden), ItsRoots(), Txid(Mined(h)[i]), h).Proven?
  {
    HonestProof(h, i);
    OnlyTheThird(hidden, Txid(Mined(h)[i]), h);
    HiddenProof(TheGrant(), HonestNode(), hidden, Txid(Mined(h)[i]), h);
    hide Prove, Hides, Txid, Mined, HonestNode, ItsScan;
  }

  // The source's two proofs: the grant, and the offer, which is admitted.
  lemma GrantProven(hidden: set<OtherHold>)
    requires hidden <= {Hold(3)}
    ensures Prove(ItsRules(), Hiding(HonestNode(), hidden), ItsRoots(), Txid(Fclaim(0)), GRANT_AT).Proven?
    ensures Txid(Fclaim(0)) in Ids(Mined(GRANT_AT))
  {
    ShownStill(hidden, GRANT_AT, 0);
    assert Mined(GRANT_AT)[0] == Fclaim(0);
    assert Ids(Mined(GRANT_AT))[0] == Txid(Fclaim(0));
    hide Txid, Prove, Fclaim, Mined, Hiding, Hold;
  }

  lemma OfferAdmitted(hidden: set<OtherHold>)
    requires hidden <= {Hold(3)}
    ensures var proof := Prove(ItsRules(), Hiding(HonestNode(), hidden), ItsRoots(), Txid(Offer(0)), OFFERS_AT);
      proof.Proven? && IsOffer(proof.event)
  {
    ShownStill(hidden, OFFERS_AT, 0);
    assert Mined(OFFERS_AT)[0] == Offer(0);
    ItIsHonest();
    ShownOffer({}, 0);
    OfferEvent(0);
    var p := Hiding(HonestNode(), hidden);
    hide Prove, TrueEvent, Txid, Offer, IsOffer, Mined, Hiding, Hold, Shown, OfferHeight, Honest;
    ProvenIsTrue(ItsRules(), p, ItsRoots(), Mined, Txid(Offer(0)), OFFERS_AT);
  }

  lemma ScansAlike(hidden: set<OtherHold>)
    ensures WindowServed(Hiding(HonestNode(), hidden), ItsRoots(), TIP)
    ensures ScanOf(ItsRules(), Txid(Offer(0)), Window(ServedChain(Hiding(HonestNode(), hidden), ItsRoots()), TIP)) == ItsScan()
  {
    AllServed(hidden);
    ItIsHonest();
    TheScan();
    var p := Hiding(HonestNode(), hidden);
    hide Served, ServedChain, ScanOf, Window, Txid, Offer, Commits, Honest, Hiding, HonestNode, ItsScan, Mined, ItsRules, ItsRoots;
    WindowScansAlike(ItsRules(), Txid(Offer(0)), p, ItsRoots(), Mined, TIP);
  }

  lemma ItsScanIs()
    ensures ItsScan().heightOf == map[Txid(Fclaim(0)) := GRANT_AT] && ItsScan().scanned == {Txid(Fclaim(0))}
    ensures Txid(Offer(0)) != Txid(Fclaim(0))
  {
    IdsDiffer(0, 0);
  }

  lemma ItsParts()
    ensures ItsHints().offer == Txid(Offer(0)) && ItsHints().fclaim == Txid(Fclaim(0)) && ItsHints().offerHeight == OFFERS_AT
    ensures ItsRules().admitted == IsOffer
  {
  }

  // Neither node makes the source refuse.
  lemma BothAreAccepted(hidden: set<OtherHold>)
    requires hidden == {} || hidden == {Hold(3)}
    ensures Accepts(ItsRules(), Hiding(HonestNode(), hidden), ItsRoots(), TIP, ItsHints())
  {
    hide WindowServed, Txid, Prove, ScanOf, Window, Fclaim, Offer, Mined, Served, IsOffer, Hiding, HonestNode, Hold, ItsScan, ServedChain, ItsRoots, ItsRules, ItsHints;
    ScansAlike(hidden);
    AllServed(hidden);
    GrantProven(hidden);
    OfferAdmitted(hidden);
    ItsScanIs();
    ItsParts();
  }
}
