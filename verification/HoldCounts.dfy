// The reported count of the buyer's other holds against an honest node's: when it can be lower, and by how much.

module HoldCounts {
  import opened Base
  import opened Transactions
  import opened Blocks
  import opened FillScan

  // What a count is taken of: the rules, the verified roots and the chain they commit to, the buyer, the grant, the scan.
  datatype Grant = Grant(r: Rules, roots: Roots, mined: int -> Body, me: Address, t: Target, s: Scan)

  function Live(g: Grant): seq<OtherHold> { LiveOthers(g.s.others, g.t.height) }

  ghost function Count(g: Grant, p: Provider): nat { HoldCount(g.r, p, g.roots, g.me, g.t, g.s) }

  // The offers of the plain count, and of the count without the proven-closed holds.
  ghost function RawOffers(g: Grant, p: Provider): set<Hash> { CountedOffers(HeldBy(g.r, p, g.roots, g.me, Live(g)), g.t, g.me, {}) }

  ghost function OpenOffers(g: Grant, p: Provider): set<Hash> {
    CountedOffers(HeldBy(g.r, p, g.roots, g.me, Live(g)), g.t, g.me, ClosedIds(g.r, p, g.roots, g.me, g.t.height, g.s.attests, Live(g)))
  }

  // ---- The same on the chain, with the authors of some holds hidden ----

  predicate Hides(hidden: set<OtherHold>, id: Hash, h: int) { exists c :: c in hidden && c.id == id && c.height == h }

  // The event a node shows: the mined one at a verified height, unless it is a hidden hold.
  function Shown(g: Grant, hidden: set<OtherHold>, id: Hash, h: int): Option<Event> {
    if g.roots(h).None? || Hides(hidden, id, h) then None else TrueEvent(g.mined, id, h)
  }

  // Other people's holds among the live ones.
  ghost function Others(g: Grant): set<OtherHold> { set c | c in Live(g) && AuthorOf(c.id) != Some(g.me) }

  // My holds, and the hidden ones, which are taken for mine.
  ghost function Mine(g: Grant, hidden: set<OtherHold>): set<OtherHold> {
    set c | c in Live(g) && (AuthorOf(c.id) == Some(g.me) || Hides(hidden, c.id, c.height))
  }

  predicate Counted(g: Grant, c: OtherHold) { Counts(Held(c, g.me), g.t, g.me, {}) }

  ghost function RawOf(g: Grant, hidden: set<OtherHold>): set<Hash> { set c | c in Mine(g, hidden) && Counted(g, c) :: c.offer }

  // A shown fill of mine closed the shown offer the hold is on.
  ghost predicate ShownClosed(g: Grant, heights: Hash -> Option<int>, hidden: set<OtherHold>, c: OtherHold) {
    heights(c.offer).Some? &&
    var offer := Shown(g, hidden, c.offer, heights(c.offer).value);
    offer.Some? && exists a :: a in g.s.attests && FillCloses(g, hidden, c, offer.value, a)
  }

  predicate FillCloses(g: Grant, hidden: set<OtherHold>, c: OtherHold, offer: Event, a: Attested) {
    a.proposal == c.id &&
    var fill := Shown(g, hidden, a.id, a.height);
    fill.Some? && fill.value.author == g.me && g.r.closes(fill.value, c, offer, g.me, g.t.height)
  }

  ghost function OpenOf(g: Grant, heights: Hash -> Option<int>, hidden: set<OtherHold>): set<Hash> {
    set c | c in Mine(g, hidden) && Counted(g, c) && StaysOpen(g, heights, hidden, c) :: c.offer
  }

  ghost predicate StaysOpen(g: Grant, heights: Hash -> Option<int>, hidden: set<OtherHold>, c: OtherHold) {
    forall d :: d in Mine(g, hidden) && d.id == c.id ==> !ShownClosed(g, heights, hidden, d)
  }

  // ---- A node that shows everything but the hidden holds ----

  ghost predicate Shows(g: Grant, p: Provider, hidden: set<OtherHold>) {
    forall id, h :: Prove(g.r, p, g.roots, id, h).Proven? <==> Shown(g, hidden, id, h).Some?
  }

  lemma ShownProof(g: Grant, p: Provider, hidden: set<OtherHold>, id: Hash, h: int)
    requires Commits(g.roots, g.mined) && Shows(g, p, hidden)
    ensures Shown(g, hidden, id, h) == (var proof := Prove(g.r, p, g.roots, id, h); if proof.Proven? then Some(proof.event) else None)
  {
    hide Prove, TrueEvent;
    if Prove(g.r, p, g.roots, id, h).Proven? { ProvenIsTrue(g.r, p, g.roots, g.mined, id, h); }
  }

  // Every mined event at a verified height can be proven from an honest node's answers.
  ghost predicate Honest(g: Grant, q: Provider) {
    forall id, h :: g.roots(h).Some? && id in Ids(g.mined(h)) && !id.stripped.app.NoApp? ==> Prove(g.r, q, g.roots, id, h).Proven?
  }

  lemma HonestShows(g: Grant, q: Provider)
    requires Commits(g.roots, g.mined) && Honest(g, q)
    ensures Shows(g, q, {})
  {
    hide Prove, Commits, Binds;
    forall id, h ensures Prove(g.r, q, g.roots, id, h).Proven? <==> Shown(g, {}, id, h).Some? {
      if Prove(g.r, q, g.roots, id, h).Proven? {
        ProvenIsTrue(g.r, q, g.roots, g.mined, id, h);
        ProvenIsServed(g.r, q, g.roots, id, h);
      } else if TrueEvent(g.mined, id, h).Some? {
        TrueEventIsMined(g.mined, id, h);
      }
    }
  }

  lemma ProvenIsServed(r: Rules, p: Provider, roots: Roots, id: Hash, h: int)
    requires Prove(r, p, roots, id, h).Proven?
    ensures roots(h).Some?
  {
  }

  lemma TrueEventIsMined(mined: int -> Body, id: Hash, h: int)
    requires TrueEvent(mined, id, h).Some?
    ensures id in Ids(mined(h)) && !id.stripped.app.NoApp?
  {
    var pos := IndexOf(Ids(mined(h)), id).value;
    assert Ids(mined(h))[pos] == Txid(mined(h)[pos]);
  }

  // The honest node's answers, but for the spent transactions of the hidden holds.
  function Hiding(q: Provider, hidden: set<OtherHold>): Provider {
    Provider(q.bodies, (id: Hash, h: int) => if Hides(hidden, id, h) then None else q.spent(id, h), q.offerHeights)
  }

  lemma HidingShows(g: Grant, q: Provider, hidden: set<OtherHold>)
    requires Commits(g.roots, g.mined) && Honest(g, q)
    ensures Shows(g, Hiding(q, hidden), hidden)
  {
    HonestShows(g, q);
    hide Honest;
    hide TrueEvent;
    forall id, h ensures Prove(g.r, Hiding(q, hidden), g.roots, id, h).Proven? <==> Shown(g, hidden, id, h).Some? {
      assert Prove(g.r, q, g.roots, id, h).Proven? <==> Shown(g, {}, id, h).Some?;
      HiddenProof(g, q, hidden, id, h);
    }
  }

  lemma HiddenProof(g: Grant, q: Provider, hidden: set<OtherHold>, id: Hash, h: int)
    ensures Prove(g.r, Hiding(q, hidden), g.roots, id, h).Proven? <==> Prove(g.r, q, g.roots, id, h).Proven? && !Hides(hidden, id, h)
  {
    hide Binds, Txid, IndexOf;
    assert Served(Hiding(q, hidden), g.roots, h) == Served(q, g.roots, h);
  }

  // Every live hold is mined, with an author, at a verified height.
  ghost predicate AllMined(g: Grant) { forall c :: c in Live(g) ==> g.roots(c.height).Some? && TrueEvent(g.mined, c.id, c.height).Some? }

  lemma ShownAttributed(g: Grant, p: Provider, hidden: set<OtherHold>, c: OtherHold)
    requires Commits(g.roots, g.mined) && Shows(g, p, hidden) && AllMined(g) && c in Live(g)
    ensures Attributed(g.r, p, g.roots, g.me, c).proposer == g.me <==> c in Mine(g, hidden)
    ensures Attributed(g.r, p, g.roots, g.me, c).hold == c
  {
    hide Prove;
    ShownProof(g, p, hidden, c.id, c.height);
  }

  lemma ShownClosedBy(g: Grant, p: Provider, hidden: set<OtherHold>, c: OtherHold)
    requires Commits(g.roots, g.mined) && Shows(g, p, hidden) && p.offerHeights.Some?
    ensures ProvenClosed(g.r, p, g.roots, g.me, g.t.height, g.s.attests, c) <==> ShownClosed(g, p.offerHeights.value, hidden, c)
  {
    hide Prove, Shown, SignerIsMe, Shows;
    var oh := p.offerHeights.value(c.offer);
    if oh.Some? {
      ShownProof(g, p, hidden, c.offer, oh.value);
      forall a | a in g.s.attests
        ensures ClosedBy(g.r, p, g.roots, g.me, g.t.height, c, a) <==>
          Shown(g, hidden, c.offer, oh.value).Some? && FillCloses(g, hidden, c, Shown(g, hidden, c.offer, oh.value).value, a)
      {
        ShownProof(g, p, hidden, a.id, a.height);
        if Prove(g.r, p, g.roots, a.id, a.height).Proven? { ProvenSigner(g.r, p, g.roots, g.me, a); }
      }
    }
  }

  // A signer bind that names an author recovered that author.
  lemma ProvenSigner(r: Rules, p: Provider, roots: Roots, me: Address, a: Attested)
    requires Prove(r, p, roots, a.id, a.height).Proven?
    ensures SignerIsMe(r, p, roots, me, a) <==> Prove(r, p, roots, a.id, a.height).event.author == me
  {
  }

  lemma InHeld(g: Grant, p: Provider, closed: set<Hash>)
    ensures CountedOffers(HeldBy(g.r, p, g.roots, g.me, Live(g)), g.t, g.me, closed)
         == set c | c in Live(g) && Counts(Attributed(g.r, p, g.roots, g.me, c), g.t, g.me, closed) :: c.offer
  {
    hide Attributed, Counts;
    var live, held := Live(g), HeldBy(g.r, p, g.roots, g.me, Live(g));
    forall c | c in live ensures Attributed(g.r, p, g.roots, g.me, c) in held {
      var i :| 0 <= i < |live| && live[i] == c;
      assert held[i] == Attributed(g.r, p, g.roots, g.me, c);
    }
    forall x | x in held ensures x.hold in live && x == Attributed(g.r, p, g.roots, g.me, x.hold) {
      var i :| 0 <= i < |held| && held[i] == x;
      HoldKept(g, p, live[i]);
    }
    forall c | c in live ensures Attributed(g.r, p, g.roots, g.me, c).hold == c { HoldKept(g, p, c); }
  }

  lemma HoldKept(g: Grant, p: Provider, c: OtherHold)
    ensures Attributed(g.r, p, g.roots, g.me, c).hold == c
  {
  }

  lemma MineIsLive(g: Grant, hidden: set<OtherHold>)
    ensures forall c :: c in Mine(g, hidden) ==> c in Live(g)
  {
  }

  // The counts of such a node are those on the chain.
  lemma ShownCounts(g: Grant, p: Provider, hidden: set<OtherHold>)
    requires Commits(g.roots, g.mined) && Shows(g, p, hidden) && AllMined(g)
    ensures RawOffers(g, p) == RawOf(g, hidden)
    ensures p.offerHeights.Some? ==> OpenOffers(g, p) == OpenOf(g, p.offerHeights.value, hidden)
  {
    hide Shows, AllMined, Attributed, ProvenClosed, ShownClosed, Mine;
    forall c | c in Live(g)
      ensures Attributed(g.r, p, g.roots, g.me, c).hold == c
      ensures Attributed(g.r, p, g.roots, g.me, c).proposer == g.me <==> c in Mine(g, hidden)
    {
      ShownAttributed(g, p, hidden, c);
    }
    MineIsLive(g, hidden);
    InHeld(g, p, {});
    var closed := ClosedIds(g.r, p, g.roots, g.me, g.t.height, g.s.attests, Live(g));
    InHeld(g, p, closed);
    if p.offerHeights.Some? {
      forall c | c in Live(g)
        ensures ProvenClosed(g.r, p, g.roots, g.me, g.t.height, g.s.attests, c) <==> ShownClosed(g, p.offerHeights.value, hidden, c)
      {
        ShownClosedBy(g, p, hidden, c);
      }
    }
  }

  // ---- Any node ----

  // The others' holds a node lets no proof of be made.
  ghost function Unproven(g: Grant, p: Provider): set<OtherHold> {
    set c | c in Others(g) && !Prove(g.r, p, g.roots, c.id, c.height).Proven?
  }

  lemma AnyAttributed(g: Grant, p: Provider, c: OtherHold)
    requires Commits(g.roots, g.mined) && c in Live(g)
    ensures Attributed(g.r, p, g.roots, g.me, c).proposer == g.me <==> c in Mine(g, Unproven(g, p))
  {
    hide Prove;
    if Prove(g.r, p, g.roots, c.id, c.height).Proven? {
      ProvenIsTrue(g.r, p, g.roots, g.mined, c.id, c.height);
    } else if AuthorOf(c.id) != Some(g.me) {
      assert c in Unproven(g, p);
    }
  }

  lemma ProvenIsShown(g: Grant, p: Provider, id: Hash, h: int)
    requires Commits(g.roots, g.mined) && Prove(g.r, p, g.roots, id, h).Proven?
    ensures Shown(g, Unproven(g, p), id, h) == Some(Prove(g.r, p, g.roots, id, h).event)
  {
    ProvenIsTrue(g.r, p, g.roots, g.mined, id, h);
    ProvenIsServed(g.r, p, g.roots, id, h);
    hide Prove;
  }

  lemma AnyClosed(g: Grant, p: Provider, c: OtherHold)
    requires Commits(g.roots, g.mined) && ProvenClosed(g.r, p, g.roots, g.me, g.t.height, g.s.attests, c)
    ensures p.offerHeights.Some? && ShownClosed(g, p.offerHeights.value, Unproven(g, p), c)
  {
    hide Prove, Shown, SignerIsMe, Unproven;
    var a :| a in g.s.attests && ClosedBy(g.r, p, g.roots, g.me, g.t.height, c, a);
    ProvenIsShown(g, p, c.offer, p.offerHeights.value(c.offer).value);
    ProvenIsShown(g, p, a.id, a.height);
    ProvenSigner(g.r, p, g.roots, g.me, a);
    assert FillCloses(g, Unproven(g, p), c, Shown(g, Unproven(g, p), c.offer, p.offerHeights.value(c.offer).value).value, a);
  }

  // What a node can make of the counts: it chooses which others' holds to hide, and can only keep more of them open.
  lemma AnyCounts(g: Grant, p: Provider)
    requires Commits(g.roots, g.mined)
    ensures RawOffers(g, p) == RawOf(g, Unproven(g, p))
    ensures p.offerHeights.Some? ==> OpenOf(g, p.offerHeights.value, Unproven(g, p)) <= OpenOffers(g, p)
  {
    hide Attributed, ProvenClosed, ShownClosed, Mine, Unproven;
    forall c | c in Live(g)
      ensures Attributed(g.r, p, g.roots, g.me, c).hold == c
      ensures Attributed(g.r, p, g.roots, g.me, c).proposer == g.me <==> c in Mine(g, Unproven(g, p))
    {
      HoldKept(g, p, c);
      AnyAttributed(g, p, c);
    }
    MineIsLive(g, Unproven(g, p));
    InHeld(g, p, {});
    InHeld(g, p, ClosedIds(g.r, p, g.roots, g.me, g.t.height, g.s.attests, Live(g)));
    forall c | ProvenClosed(g.r, p, g.roots, g.me, g.t.height, g.s.attests, c)
      ensures p.offerHeights.Some? && ShownClosed(g, p.offerHeights.value, Unproven(g, p), c)
    {
      AnyClosed(g, p, c);
    }
  }

  // Hiding holds adds them to mine, and proves no more of mine closed.
  lemma HidingAdds(g: Grant, heights: Hash -> Option<int>, hidden: set<OtherHold>)
    requires hidden <= Others(g)
    ensures RawOf(g, {}) <= RawOf(g, hidden) && OpenOf(g, heights, {}) <= OpenOf(g, heights, hidden)
  {
    forall c | c in Mine(g, {}) && StaysOpen(g, heights, {}, c) ensures StaysOpen(g, heights, hidden, c) {
      forall d | d in Mine(g, hidden) && d.id == c.id ensures !ShownClosed(g, heights, hidden, d) {
        assert d in Mine(g, {});
        ClosedLess(g, heights, hidden, d);
      }
    }
    assert Mine(g, {}) <= Mine(g, hidden);
    hide StaysOpen, Mine, Counted;
  }

  lemma ClosedLess(g: Grant, heights: Hash -> Option<int>, hidden: set<OtherHold>, c: OtherHold)
    ensures ShownClosed(g, heights, hidden, c) ==> ShownClosed(g, heights, {}, c)
  {
    hide TrueEvent;
    if ShownClosed(g, heights, hidden, c) {
      var offer := Shown(g, hidden, c.offer, heights(c.offer).value).value;
      var a :| a in g.s.attests && FillCloses(g, hidden, c, offer, a);
      assert FillCloses(g, {}, c, offer, a);
    }
  }

  lemma OpenWithinRaw(g: Grant, heights: Hash -> Option<int>, hidden: set<OtherHold>)
    ensures OpenOf(g, heights, hidden) <= RawOf(g, hidden)
  {
    hide StaysOpen, Mine, Counted;
  }

  // ---- Against the honest node ----

  ghost function CountOn(g: Grant, heights: Option<Hash -> Option<int>>, hidden: set<OtherHold>): nat {
    var raw := |RawOf(g, hidden)|;
    if raw >= MAX_ACTIVE_CLAIMS && heights.Some? then |OpenOf(g, heights.value, hidden)| else raw
  }

  lemma CountIs(g: Grant, p: Provider)
    ensures Count(g, p) == if |RawOffers(g, p)| >= MAX_ACTIVE_CLAIMS && p.offerHeights.Some? then |OpenOffers(g, p)| else |RawOffers(g, p)|
  {
    hide HeldBy, ClosedIds, LiveOthers;
  }

  lemma HonestCount(g: Grant, q: Provider)
    requires Commits(g.roots, g.mined) && AllMined(g) && Honest(g, q)
    ensures Count(g, q) == CountOn(g, q.offerHeights, {})
  {
    HonestShows(g, q);
    ShownCounts(g, q, {});
    CountIs(g, q);
  }

  // The guard a caller can check: with no second source, or with the plain count under the cap, the count is at least the
  // honest one.
  lemma GuardedCountAtLeastHonest(g: Grant, p: Provider, q: Provider)
    requires Commits(g.roots, g.mined) && AllMined(g) && Honest(g, q) && q.offerHeights == p.offerHeights
    requires p.offerHeights.None? || |RawOffers(g, p)| < MAX_ACTIVE_CLAIMS
    ensures Count(g, p) >= Count(g, q)
  {
    Within(g, p);
    HonestCount(g, q);
    hide RawOf, OpenOf, Honest, AllMined, Commits;
  }

  // The sizes behind every comparison: any node's counts reach at least those with nothing hidden.
  lemma Within(g: Grant, p: Provider)
    requires Commits(g.roots, g.mined)
    ensures Count(g, p) == if |RawOffers(g, p)| >= MAX_ACTIVE_CLAIMS && p.offerHeights.Some? then |OpenOffers(g, p)| else |RawOffers(g, p)|
    ensures |RawOffers(g, p)| == |RawOf(g, Unproven(g, p))| >= |RawOf(g, {})|
    ensures p.offerHeights.Some? ==> |OpenOffers(g, p)| >= |OpenOf(g, p.offerHeights.value, Unproven(g, p))| >= |OpenOf(g, p.offerHeights.value, {})|
    ensures p.offerHeights.Some? ==> |OpenOf(g, p.offerHeights.value, {})| <= |RawOf(g, {})|
  {
    CountIs(g, p);
    AnyCounts(g, p);
    var hidden, heights := Unproven(g, p), if p.offerHeights.Some? then p.offerHeights.value else (id: Hash) => None;
    HidingAdds(g, heights, hidden);
    OpenWithinRaw(g, heights, {});
    SubsetSize(RawOf(g, {}), RawOf(g, hidden));
    SubsetSize(OpenOf(g, heights, {}), OpenOf(g, heights, hidden));
    SubsetSize(OpenOf(g, heights, {}), RawOf(g, {}));
    if p.offerHeights.Some? { SubsetSize(OpenOf(g, heights, hidden), OpenOffers(g, p)); }
  }

  // The cap verdict is never looser than with an honest node: a count under the cap means the honest count is too.
  lemma VerdictNeverLooser(g: Grant, p: Provider, q: Provider)
    requires Commits(g.roots, g.mined) && AllMined(g) && Honest(g, q) && q.offerHeights == p.offerHeights
    ensures Count(g, p) < MAX_ACTIVE_CLAIMS ==> Count(g, q) < MAX_ACTIVE_CLAIMS
  {
    Within(g, p);
    HonestCount(g, q);
    hide RawOf, OpenOf, Honest, AllMined, Commits;
  }

  // How far the count can fall: by no more than the offers my own proven fills closed, and by less than the cap.
  lemma FallIsBounded(g: Grant, p: Provider, q: Provider)
    requires Commits(g.roots, g.mined) && AllMined(g) && Honest(g, q) && q.offerHeights == p.offerHeights
    ensures Count(g, q) < Count(g, p) + MAX_ACTIVE_CLAIMS
    ensures p.offerHeights.Some? ==> Count(g, q) <= Count(g, p) + |RawOf(g, {}) - OpenOf(g, p.offerHeights.value, {})|
  {
    Within(g, p);
    HonestCount(g, q);
    if p.offerHeights.Some? {
      OpenWithinRaw(g, p.offerHeights.value, {});
      var raw, open := RawOf(g, {}), OpenOf(g, p.offerHeights.value, {});
      assert raw == open + (raw - open);
    }
    hide RawOf, OpenOf, Honest, AllMined, Commits;
  }

  // The chain lets some node lower the count: a second source is given, my holds alone stay under the cap, and hiding some
  // of the others' live holds lifts the plain count to the cap while fewer offers than mine are then left open.
  ghost predicate CanBeLowered(g: Grant, heights: Option<Hash -> Option<int>>) {
    && heights.Some? && |RawOf(g, {})| < MAX_ACTIVE_CLAIMS
    && exists hidden :: hidden <= Others(g) && LiftsToLess(g, heights.value, hidden)
  }

  ghost predicate LiftsToLess(g: Grant, heights: Hash -> Option<int>, hidden: set<OtherHold>) {
    |RawOf(g, hidden)| >= MAX_ACTIVE_CLAIMS && |OpenOf(g, heights, hidden)| < |RawOf(g, {})|
  }

  ghost predicate Lowers(g: Grant, p: Provider, q: Provider) { p.offerHeights == q.offerHeights && Count(g, p) < Count(g, q) }

  // A node that makes the count lower than the honest one exists exactly then.
  lemma LoweredExactly(g: Grant, q: Provider)
    requires Commits(g.roots, g.mined) && AllMined(g) && Honest(g, q)
    ensures (exists p: Provider :: Lowers(g, p, q)) <==> CanBeLowered(g, q.offerHeights)
  {
    HonestCount(g, q);
    if p: Provider :| Lowers(g, p, q) {
      LoweringHides(g, p, q);
    }
    if CanBeLowered(g, q.offerHeights) {
      var hidden :| hidden <= Others(g) && LiftsToLess(g, q.offerHeights.value, hidden);
      HidingLowers(g, q, hidden);
      assert Lowers(g, Hiding(q, hidden), q);
    }
  }

  lemma LoweringHides(g: Grant, p: Provider, q: Provider)
    requires Commits(g.roots, g.mined) && AllMined(g) && Honest(g, q) && Lowers(g, p, q)
    ensures CanBeLowered(g, q.offerHeights)
  {
    Within(g, p);
    HonestCount(g, q);
    hide RawOf, OpenOf, Honest, AllMined, Commits;
    assert LiftsToLess(g, q.offerHeights.value, Unproven(g, p));
  }

  lemma HidingLowers(g: Grant, q: Provider, hidden: set<OtherHold>)
    requires Commits(g.roots, g.mined) && AllMined(g) && Honest(g, q) && q.offerHeights.Some?
    requires |RawOf(g, {})| < MAX_ACTIVE_CLAIMS && LiftsToLess(g, q.offerHeights.value, hidden)
    ensures Lowers(g, Hiding(q, hidden), q)
  {
    HonestCount(g, q);
    HidingShows(g, q, hidden);
    ShownCounts(g, Hiding(q, hidden), hidden);
    CountIs(g, Hiding(q, hidden));
    hide RawOf, OpenOf, Honest, AllMined, Commits;
  }

  // ---- The count the source returns ----

  ghost function GrantIn(r: Rules, roots: Roots, mined: int -> Body, tip: int, hints: Hints): Grant {
    var s := ScanOf(r, hints.offer, Window(mined, tip));
    Grant(r, roots, mined, hints.me, GrantOf(mined, hints, if hints.fclaim in s.heightOf then s.heightOf[hints.fclaim] else 0), s)
  }

  // What the scan takes for other holds is mined in the window.
  lemma {:induction false} OthersAreItems(r: Rules, offer: Hash, items: seq<Item>, c: OtherHold)
    requires c in FirstPass(r, offer, items).others
    ensures exists x :: x in items && Txid(x.tx) == c.id && x.height == c.height && x.tx.app.Propose?
  {
    var before, x := items[..|items| - 1], items[|items| - 1];
    if c in FirstPass(r, offer, before).others {
      OthersAreItems(r, offer, before, c);
      var y :| y in before && Txid(y.tx) == c.id && y.height == c.height && y.tx.app.Propose?;
      assert y in items;
    } else {
      assert x in items;
    }
  }

  lemma {:induction false} LiveIsOther(others: seq<OtherHold>, grant: int, c: OtherHold)
    requires c in LiveOthers(others, grant)
    ensures c in others
  {
    var init := others[..|others| - 1];
    if c in LiveOthers(init, grant) { LiveIsOther(init, grant, c); }
  }

  // With the window verified and an honest node to prove them, the live holds of the scan are all mined.
  lemma ScannedAreMined(r: Rules, roots: Roots, mined: int -> Body, tip: int, hints: Hints, q: Provider)
    requires Commits(roots, mined) && Honest(GrantIn(r, roots, mined, tip, hints), q)
    requires forall h :: From(tip) <= h < From(tip) + Span(tip) ==> roots(h).Some?
    ensures AllMined(GrantIn(r, roots, mined, tip, hints))
  {
    hide ScanOf, Window, Commits, Prove, TrueEvent, Binds, GrantOf;
    var g := GrantIn(r, roots, mined, tip, hints);
    forall c | c in Live(g) ensures g.roots(c.height).Some? && TrueEvent(g.mined, c.id, c.height).Some? {
      LiveIsOther(g.s.others, g.t.height, c);
      OtherIsMined(r, mined, tip, hints.offer, c);
      assert Prove(g.r, q, g.roots, c.id, c.height).Proven?;
      ProvenIsTrue(r, q, roots, mined, c.id, c.height);
    }
  }

  lemma OtherIsMined(r: Rules, mined: int -> Body, tip: int, offer: Hash, c: OtherHold)
    requires c in ScanOf(r, offer, Window(mined, tip)).others
    ensures From(tip) <= c.height < From(tip) + Span(tip) && c.id in Ids(mined(c.height)) && c.id.TxHash? && !c.id.stripped.app.NoApp?
  {
    var items := Window(mined, tip);
    var s := FirstPass(r, offer, items);
    KeepLeavesOthers(s, |s.attests|);
    OthersAreItems(r, offer, items, c);
    var x :| x in items && Txid(x.tx) == c.id && x.height == c.height && x.tx.app.Propose?;
    ItemsAre(mined, From(tip), Span(tip), x);
    assert Ids(mined(c.height))[x.pos] == c.id;
  }

  // A source that returns reports the count of its own answers; under the cap, an honest node's source reports under the
  // cap too, and it falls short of the honest count only as bounded.
  lemma ReturnedCount(r: Rules, p: Provider, q: Provider, roots: Roots, mined: int -> Body, tip: int, hints: Hints, io: FillIo)
    requires Commits(roots, mined) && WindowServed(p, roots, tip) && CountsAtGrant(r, p, roots, mined, tip, hints, io)
    requires Honest(GrantIn(r, roots, mined, tip, hints), q) && q.offerHeights == p.offerHeights
    ensures var g := GrantIn(r, roots, mined, tip, hints);
      && io.holds == Count(g, p)
      && (io.holds < MAX_ACTIVE_CLAIMS ==> Count(g, q) < MAX_ACTIVE_CLAIMS)
      && (p.offerHeights.None? || |RawOffers(g, p)| < MAX_ACTIVE_CLAIMS ==> io.holds >= Count(g, q))
      && Count(g, q) < io.holds + MAX_ACTIVE_CLAIMS
  {
    forall h | From(tip) <= h < From(tip) + Span(tip) ensures roots(h).Some? { assert Served(p, roots, h).Some?; }
    hide ScanOf, Window, Commits, Prove, Binds, Honest, HoldCount, GrantOf, AllMined, RawOffers, WindowServed;
    var g := GrantIn(r, roots, mined, tip, hints);
    ScannedAreMined(r, roots, mined, tip, hints, q);
    VerdictNeverLooser(g, p, q);
    FallIsBounded(g, p, q);
    if p.offerHeights.None? || |RawOffers(g, p)| < MAX_ACTIVE_CLAIMS { GuardedCountAtLeastHonest(g, p, q); }
  }
}
