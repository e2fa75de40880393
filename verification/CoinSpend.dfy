// Spending: the session's skip caches, the bounded rounds of select, verify and exclude, the assembly of every
// value-moving transaction, consolidation, and the largest sendable amount.

module CoinSpend {
  import opened Base
  import opened Blocks
  import opened CoinSelect
  import opened CoinVerify

  const MAX_SELECT_ROUNDS: nat := 3
  const GHOST_TTL_MS: int := 120_000
  const SKIP_CACHE_MAX: nat := 2048
  const CSD: int := 100_000_000
  const MAX_FEE: int := 100 * CSD

  // ---- The skip caches ----

  type Cache = map<Outpoint, int>   // outpoint to expiry

  function Unexpired(m: Cache, now: int): (r: Cache)
    ensures r.Keys <= m.Keys && Lasts(r, now)
    ensures forall k :: k in m && m[k] > now ==> k in r && r[k] == m[k]
    ensures Lasts(m, now) ==> r == m
    ensures forall t :: Lasts(m, t) ==> Lasts(r, t)
  {
    map k | k in m && m[k] > now :: m[k]
  }

  ghost predicate Lasts(m: Cache, now: int) { forall k :: k in m ==> m[k] > now }

  // The entries whose time is not up.
  ghost function LiveKeys(m: Cache, now: int): set<Outpoint> { set k | k in m && m[k] > now }

  // The caches that hold a reported coin.
  ghost function Meeting(ghosts: set<Outpoint>, horizons: set<Outpoint>, unreps: set<Outpoint>, reported: set<Outpoint>): set<Skipped> {
    (if ghosts * reported == {} then {} else {Ghosts}) + (if horizons * reported == {} then {} else {Horizons})
    + if unreps * reported == {} then {} else {Unrepresentables}
  }

  // One more entry; a cache that outgrows its limit is emptied.
  function Filed(m: Cache, k: Outpoint, expiry: int): (r: Cache)
    ensures r.Keys <= m.Keys + {k} && |r| <= SKIP_CACHE_MAX
    ensures if |m.Keys + {k}| <= 2048 then r == m[k := expiry] else r == map[]
  {
    assert m[k := expiry].Keys == m.Keys + {k};
    if |m[k := expiry]| > SKIP_CACHE_MAX then map[] else m[k := expiry]
  }

  // The coin is in, until its time is up, unless the cache had outgrown its limit with it.
  ghost predicate FiledIn(before: Cache, after: Cache, k: Outpoint, now: int) {
    after == if |before.Keys + {k}| <= 2048 then before[k := now + 120_000] else map[]
  }

  lemma FiledFits(m: Cache, k: Outpoint, expiry: int, all: set<Outpoint>)
    requires m.Keys + {k} <= all && |all| <= SKIP_CACHE_MAX
    ensures Filed(m, k, expiry) == m[k := expiry]
  {
    SetSize(m[k := expiry].Keys, all);
  }

  // Coins a node could not prove lately, one cache per reason.
  class SkipCaches {
    var ghosts: Cache
    var horizons: Cache
    var unreps: Cache

    constructor ()
      ensures Valid() && Excluded() == {}
    {
      ghosts, horizons, unreps := map[], map[], map[];
    }

    // A coin is filed under one reason at most, and no cache outgrows its limit.
    ghost predicate Valid()
      reads this
    {
      && Apart(ghosts.Keys, horizons.Keys, unreps.Keys)
      && |ghosts| <= SKIP_CACHE_MAX && |horizons| <= SKIP_CACHE_MAX && |unreps| <= SKIP_CACHE_MAX
    }

    ghost function Excluded(): set<Outpoint>
      reads this
    {
      Together(ghosts.Keys, horizons.Keys, unreps.Keys)
    }

    ghost predicate NoneExpires(now: int)
      reads this
    {
      Lasts(ghosts, now) && Lasts(horizons, now) && Lasts(unreps, now)
    }

    // What is still excluded at `now`.
    ghost function Live(now: int): set<Outpoint>
      reads this
    {
      LiveKeys(ghosts, now) + LiveKeys(horizons, now) + LiveKeys(unreps, now)
    }

    // The reasons reported coins are still excluded for.
    ghost function Standing(now: int, reported: set<Outpoint>): set<Skipped>
      reads this
    {
      Meeting(LiveKeys(ghosts, now), LiveKeys(horizons, now), LiveKeys(unreps, now), reported)
    }

    // Drops what expired and returns every coin still excluded.
    method SessionExclusions(now: int) returns (exclude: set<Outpoint>)
      requires Valid()
      modifies this
      ensures Valid() && exclude == Excluded() && Excluded() <= old(Excluded()) && NoneExpires(now)
      ensures ghosts == Unexpired(old(ghosts), now) && horizons == Unexpired(old(horizons), now) && unreps == Unexpired(old(unreps), now)
      ensures old(NoneExpires(now)) ==> Excluded() == old(Excluded())
      ensures forall t :: old(NoneExpires(t)) ==> NoneExpires(t)
      ensures exclude == old(Live(now)) && ghosts.Keys == old(LiveKeys(ghosts, now)) && horizons.Keys == old(LiveKeys(horizons, now)) && unreps.Keys == old(LiveKeys(unreps, now))
    {
      hide Unexpired, Lasts, Apart, Together, LiveKeys;
      UnexpiredIsLive(ghosts, now);
      UnexpiredIsLive(horizons, now);
      UnexpiredIsLive(unreps, now);
      Shrunk(ghosts, horizons, unreps, now);
      ghosts, horizons, unreps := Unexpired(ghosts, now), Unexpired(horizons, now), Unexpired(unreps, now);
      exclude := ghosts.Keys + horizons.Keys + unreps.Keys;
      assert exclude == Excluded() by { Sums(ghosts.Keys, horizons.Keys, unreps.Keys); }
    }

    // How many of the reported coins each cache holds.
    method CountReported(reported: set<Outpoint>) returns (c: Counts)
      ensures c == Counts(|ghosts.Keys * reported|, |horizons.Keys * reported|, |unreps.Keys * reported|)
    {
      c := Counts(|ghosts.Keys * reported|, |horizons.Keys * reported|, |unreps.Keys * reported|);
    }

    // Files `k` under `into` and out of the other two.
    method RememberSkip(into: Skipped, k: Outpoint, now: int)
      requires Valid()
      modifies this
      ensures Valid() && Excluded() <= old(Excluded()) + {k}
      ensures |old(Excluded()) + {k}| <= SKIP_CACHE_MAX ==> Excluded() == old(Excluded()) + {k}
      ensures forall t :: t < now + GHOST_TTL_MS && old(NoneExpires(t)) ==> NoneExpires(t)
      ensures (k in ghosts ==> into == Ghosts) && (k in horizons ==> into == Horizons) && (k in unreps ==> into == Unrepresentables)
      ensures match into
        case Ghosts => FiledIn(old(ghosts), ghosts, k, now) && horizons == old(horizons) - {k} && unreps == old(unreps) - {k}
        case Horizons => FiledIn(old(horizons), horizons, k, now) && ghosts == old(ghosts) - {k} && unreps == old(unreps) - {k}
        case Unrepresentables => FiledIn(old(unreps), unreps, k, now) && ghosts == old(ghosts) - {k} && horizons == old(horizons) - {k}
    {
      hide Valid, Excluded, NoneExpires;
      match into {
        case Ghosts => RememberGhost(k, now);
        case Horizons => RememberHorizon(k, now);
        case Unrepresentables => RememberUnrep(k, now);
      }
    }

    method RememberGhost(k: Outpoint, now: int)
      requires Valid()
      modifies this
      ensures Valid() && Excluded() <= old(Excluded()) + {k}
      ensures |old(Excluded()) + {k}| <= SKIP_CACHE_MAX ==> Excluded() == old(Excluded()) + {k}
      ensures forall t :: t < now + GHOST_TTL_MS && old(NoneExpires(t)) ==> NoneExpires(t)
      ensures k !in horizons && k !in unreps
      ensures ghosts == (if |old(ghosts).Keys + {k}| <= 2048 then old(ghosts)[k := now + 120_000] else map[]) && horizons == old(horizons) - {k} && unreps == old(unreps) - {k}
    {
      hide Filed, Lasts, Apart, Together;
      Refile(ghosts, horizons, unreps, k, now + GHOST_TTL_MS);
      ghosts, horizons, unreps := Filed(ghosts, k, now + GHOST_TTL_MS), horizons - {k}, unreps - {k};
    }

    method RememberHorizon(k: Outpoint, now: int)
      requires Valid()
      modifies this
      ensures Valid() && Excluded() <= old(Excluded()) + {k}
      ensures |old(Excluded()) + {k}| <= SKIP_CACHE_MAX ==> Excluded() == old(Excluded()) + {k}
      ensures forall t :: t < now + GHOST_TTL_MS && old(NoneExpires(t)) ==> NoneExpires(t)
      ensures k !in ghosts && k !in unreps
      ensures horizons == (if |old(horizons).Keys + {k}| <= 2048 then old(horizons)[k := now + 120_000] else map[]) && ghosts == old(ghosts) - {k} && unreps == old(unreps) - {k}
    {
      hide Filed, Lasts, Apart, Together;
      Reordered(ghosts.Keys, horizons.Keys, unreps.Keys);
      Refile(horizons, ghosts, unreps, k, now + GHOST_TTL_MS);
      ghosts, horizons, unreps := ghosts - {k}, Filed(horizons, k, now + GHOST_TTL_MS), unreps - {k};
      Reordered(horizons.Keys, ghosts.Keys, unreps.Keys);
    }

    method RememberUnrep(k: Outpoint, now: int)
      requires Valid()
      modifies this
      ensures Valid() && Excluded() <= old(Excluded()) + {k}
      ensures |old(Excluded()) + {k}| <= SKIP_CACHE_MAX ==> Excluded() == old(Excluded()) + {k}
      ensures forall t :: t < now + GHOST_TTL_MS && old(NoneExpires(t)) ==> NoneExpires(t)
      ensures k !in ghosts && k !in horizons
      ensures unreps == (if |old(unreps).Keys + {k}| <= 2048 then old(unreps)[k := now + 120_000] else map[]) && ghosts == old(ghosts) - {k} && horizons == old(horizons) - {k}
    {
      hide Filed, Lasts, Apart, Together;
      Reordered(ghosts.Keys, horizons.Keys, unreps.Keys);
      Refile(unreps, ghosts, horizons, k, now + GHOST_TTL_MS);
      ghosts, horizons, unreps := ghosts - {k}, horizons - {k}, Filed(unreps, k, now + GHOST_TTL_MS);
      Reordered(ghosts.Keys, horizons.Keys, unreps.Keys);
    }
  }

  lemma UnexpiredIsLive(m: Cache, now: int)
    ensures Unexpired(m, now).Keys == LiveKeys(m, now)
  {
  }

  lemma Sums(a: set<Outpoint>, b: set<Outpoint>, c: set<Outpoint>)
    ensures Together(a, b, c) == a + b + c
  {
  }

  lemma Shrunk(a: Cache, b: Cache, c: Cache, now: int)
    requires Apart(a.Keys, b.Keys, c.Keys)
    ensures var a', b', c' := Unexpired(a, now), Unexpired(b, now), Unexpired(c, now);
      && Apart(a'.Keys, b'.Keys, c'.Keys) && |a'| <= |a| && |b'| <= |b| && |c'| <= |c|
      && Together(a'.Keys, b'.Keys, c'.Keys) <= Together(a.Keys, b.Keys, c.Keys)
  {
    hide Unexpired;
    SetSize(Unexpired(a, now).Keys, a.Keys);
    SetSize(Unexpired(b, now).Keys, b.Keys);
    SetSize(Unexpired(c, now).Keys, c.Keys);
  }

  ghost function Together(a: set<Outpoint>, b: set<Outpoint>, c: set<Outpoint>): set<Outpoint> { a + b + c }

  ghost predicate Apart(a: set<Outpoint>, b: set<Outpoint>, c: set<Outpoint>) { a !! b && a !! c && b !! c }

  lemma Reordered(a: set<Outpoint>, b: set<Outpoint>, c: set<Outpoint>)
    ensures Together(a, b, c) == Together(b, a, c) == Together(c, a, b)
    ensures Apart(a, b, c) <==> Apart(b, a, c)
    ensures Apart(a, b, c) <==> Apart(c, a, b)
  {
  }

  lemma Refiled(m: set<Outpoint>, a: set<Outpoint>, b: set<Outpoint>, m': set<Outpoint>, k: Outpoint)
    requires Apart(m, a, b) && m' <= m + {k}
    ensures Apart(m', a - {k}, b - {k}) && Together(m', a - {k}, b - {k}) <= Together(m, a, b) + {k}
    ensures m' == m + {k} ==> Together(m', a - {k}, b - {k}) == Together(m, a, b) + {k}
  {
  }

  lemma Dropped(a: Cache, k: Outpoint)
    ensures (a - {k}).Keys == a.Keys - {k} && |a - {k}| <= |a| && forall t :: Lasts(a, t) ==> Lasts(a - {k}, t)
  {
    SetSize((a - {k}).Keys, a.Keys);
  }

  lemma FiledFitsTogether(m: Cache, a: set<Outpoint>, b: set<Outpoint>, k: Outpoint, expiry: int)
    requires |Together(m.Keys, a, b) + {k}| <= SKIP_CACHE_MAX
    ensures Filed(m, k, expiry).Keys == m.Keys + {k}
  {
    FiledFits(m, k, expiry, Together(m.Keys, a, b) + {k});
  }

  // Filing a coin in one of three disjoint caches and out of the others.
  lemma Refile(m: Cache, a: Cache, b: Cache, k: Outpoint, expiry: int)
    requires Apart(m.Keys, a.Keys, b.Keys)
    ensures var m', a', b' := Filed(m, k, expiry), a - {k}, b - {k};
      && Apart(m'.Keys, a'.Keys, b'.Keys) && k !in a' && k !in b'
      && |m'| <= SKIP_CACHE_MAX && |a'| <= |a| && |b'| <= |b|
      && Together(m'.Keys, a'.Keys, b'.Keys) <= Together(m.Keys, a.Keys, b.Keys) + {k}
      && (|Together(m.Keys, a.Keys, b.Keys) + {k}| <= SKIP_CACHE_MAX ==>
           Together(m'.Keys, a'.Keys, b'.Keys) == Together(m.Keys, a.Keys, b.Keys) + {k})
      && (forall t :: t < expiry && Lasts(m, t) && Lasts(a, t) && Lasts(b, t) ==> Lasts(m', t) && Lasts(a', t) && Lasts(b', t))
  {
    hide Lasts, Apart, Together;
    Dropped(a, k);
    Dropped(b, k);
    FiledLasts(m, k, expiry);
    Refiled(m.Keys, a.Keys, b.Keys, Filed(m, k, expiry).Keys, k);
    if |Together(m.Keys, a.Keys, b.Keys) + {k}| <= SKIP_CACHE_MAX { FiledFitsTogether(m, a.Keys, b.Keys, k, expiry); }
    hide Filed, Lasts, Apart, Together;
  }

  lemma FiledLasts(m: Cache, k: Outpoint, expiry: int)
    ensures forall t :: t < expiry && Lasts(m, t) ==> Lasts(Filed(m, k, expiry), t)
  {
  }

  lemma SetSize<T>(a: set<T>, b: set<T>)
    requires a <= b
    ensures |a| <= |b|
  {
    assert b == a + (b - a);
  }

  // ---- Select, verify, exclude ----

  type Node = Outpoint -> Reply
  type Known = map<Outpoint, int>   // values already proven in this call

  datatype Code =
    | Unavailable | Insufficient | Tampered | TooManyInputs | BeyondHorizon | NotRepresentable | GhostsSkipped
    | FeeTooLow | FeeCap | ZeroAddress | NoOutputs | BadOutputs | BadFee | NothingToConsolidate

  datatype Funds = Funds(inputs: seq<Coin>, total: int) | Refused(code: Code)

  ghost predicate TrueKnown(known: Known) { forall k :: k in known ==> OnChain(k) == Some(known[k]) && IsValue(known[k]) }

  // Every proven value is what this node would prove again.
  ghost predicate FromNode(known: Known, node: Node) { forall k :: k in known ==> VerdictOn(k, node(k)) == Value(known[k]) }

  function Asked(c: Coin, node: Node, known: Known): Verdict {
    if c.at in known then Value(known[c.at]) else VerdictOn(c.at, node(c.at))
  }

  function VerdictsFor(inputs: seq<Coin>, node: Node, known: Known): (vs: seq<Verdict>)
    ensures |vs| == |inputs|
  {
    seq(|inputs|, i requires 0 <= i < |inputs| => Asked(inputs[i], node, known))
  }

  // What the chain says the inputs are worth.
  function RealSum(inputs: seq<Coin>): int {
    if inputs == [] then 0
    else RealSum(inputs[..|inputs| - 1]) + if OnChain(inputs[|inputs| - 1].at).Some? then OnChain(inputs[|inputs| - 1].at).value else 0
  }

  ghost predicate Proven(inputs: seq<Coin>) {
    forall c :: c in inputs ==> OnChain(c.at).Some? && IsValue(OnChain(c.at).value)
  }

  // Inputs a transaction may spend: distinct, at most 512, every value proven, worth their total, which covers `need`.
  ghost predicate GoodFunds(inputs: seq<Coin>, total: int, need: int) {
    && 1 <= |inputs| <= MAX_TX_INPUTS && DistinctCoins(inputs) && Proven(inputs)
    && total == RealSum(inputs) >= need && IsSafe(total)
  }

  lemma AskedIsTrue(c: Coin, node: Node, known: Known)
    requires TrueKnown(known)
    ensures Asked(c, node, known).Value? ==> OnChain(c.at) == Some(Asked(c, node, known).v) && IsValue(Asked(c, node, known).v)
  {
    ValueIsOnChain(c.at, node(c.at));
  }

  lemma {:induction false} TotalIsReal(inputs: seq<Coin>, node: Node, known: Known)
    requires TrueKnown(known) && forall v :: v in VerdictsFor(inputs, node, known) ==> v.Value?
    ensures Total(VerdictsFor(inputs, node, known)) == RealSum(inputs) && Proven(inputs)
  {
    var vs := VerdictsFor(inputs, node, known);
    if inputs != [] {
      var n := |inputs| - 1;
      assert vs[..n] == VerdictsFor(inputs[..n], node, known);
      forall v | v in vs[..n] ensures v.Value? { assert v in vs; }
      TotalIsReal(inputs[..n], node, known);
      AskedIsTrue(inputs[n], node, known);
      assert vs[n] in vs;
      assert inputs == inputs[..n] + [inputs[n]];
    }
  }

  // The values of a round in which every coin had one, kept for the rounds after it.
  function Learn(known: Known, inputs: seq<Coin>, node: Node): Known {
    if inputs == [] then known
    else
      var rest, c := Learn(known, inputs[..|inputs| - 1], node), inputs[|inputs| - 1];
      var v := Asked(c, node, known);
      if v.Value? then rest[c.at := v.v] else rest
  }

  lemma {:induction false} LearnIsTrue(known: Known, inputs: seq<Coin>, node: Node)
    requires TrueKnown(known)
    ensures TrueKnown(Learn(known, inputs, node))
    ensures FromNode(known, node) ==> FromNode(Learn(known, inputs, node), node)
    ensures forall c :: c in inputs && Asked(c, node, known).Value? ==> c.at in Learn(known, inputs, node)
  {
    if inputs != [] {
      var c := inputs[|inputs| - 1];
      LearnIsTrue(known, inputs[..|inputs| - 1], node);
      AskedIsTrue(c, node, known);
      assert inputs == inputs[..|inputs| - 1] + [c];
      hide VerdictOn, OnChain;
    }
  }

  // The reported total of the 512 largest coins still eligible: the most one transaction can select.
  function MaxTarget(utxos: seq<Utxo>, exclude: set<Outpoint>): int {
    var s := SortDesc(Eligible(utxos, exclude));
    var target := Sum(s[..Min(MAX_TX_INPUTS, |s|)]);
    if target > 0 then target else 1
  }

  // What the first round has to cover.
  function FirstTarget(utxos: seq<Utxo>, need: Option<int>, exclude: set<Outpoint>): int {
    if need.Some? then need.value else MaxTarget(utxos, exclude)
  }

  ghost function ReportedKeys(utxos: seq<Utxo>): set<Outpoint> { set u | u in utxos :: u.at }

  // The first round settles it: a selection whose every coin is proven and whose real worth covers the need.
  ghost predicate Accepts(utxos: seq<Utxo>, need: int, exclude: set<Outpoint>, node: Node, known: Known, inputs: seq<Coin>, total: int) {
    && Selected(utxos, need, exclude).Some? && Selected(utxos, need, exclude).value.inputs == inputs
    && (forall v :: v in VerdictsFor(inputs, node, known) ==> v.Value?)
    && total == Total(VerdictsFor(inputs, node, known)) && need <= total && IsSafe(total)
  }

  lemma EligibleIsReported(utxos: seq<Utxo>, exclude: set<Outpoint>)
    ensures Keys(Eligible(utxos, exclude)) <= ReportedKeys(utxos)
  {
    EligibleKeys(utxos, exclude);
  }

  // ---- The rounds, as a function of the node's answers ----

  // A round skips when no verdict decides the spend and some coin has no value.
  ghost predicate Skippable(vs: seq<Verdict>) { (forall v :: v in vs ==> v != Tamper && v != Transient) && exists v :: v in vs && !v.Value? }

  // The coins a round then excludes: those not found, and those of the first other reason there is.
  ghost function Unproven(inputs: seq<Coin>, vs: seq<Verdict>): set<Outpoint>
    requires |inputs| == |vs|
  {
    set k | 0 <= k < |inputs| && (vs[k] == NotFound || vs[k] == if Horizon in vs then Horizon else Unrepresentable) :: inputs[k].at
  }

  ghost function ReasonsOf(vs: seq<Verdict>): set<Skipped> {
    {if Horizon in vs then Horizons else if Unrepresentable in vs then Unrepresentables else Ghosts} + if NotFound in vs then {Ghosts} else {}
  }

  // How a round that does not skip ends.
  ghost predicate Concludes(inputs: seq<Coin>, vs: seq<Verdict>, need: int, o: Outcome) {
    if Tamper in vs || Transient in vs then (o == Fault(Tampered) && Tamper in vs) || (o == Fault(Unavailable) && Transient in vs)
    else if Total(vs) > MAX_SAFE then o == Fault(Tampered)
    else if Total(vs) < need then o == Fault(Insufficient)
    else o == Paid(inputs, Total(vs))
  }

  ghost function PickedFor(utxos: seq<Utxo>, need: int, exclude: set<Outpoint>): seq<Coin> {
    if Selected(utxos, need, exclude).Some? then Selected(utxos, need, exclude).value.inputs else []
  }

  // One round, exactly.
  ghost predicate Attempted(utxos: seq<Utxo>, need: int, exclude: set<Outpoint>, node: Node, known: Known, o: Outcome, known': Known) {
    var inputs := PickedFor(utxos, need, exclude);
    var vs := VerdictsFor(inputs, node, known);
    if Selected(utxos, need, exclude).None? then o == NoSelection
    else if Skippable(vs) then o.Skip? && SkipsAs(inputs, vs, o) && known' == Learn(known, inputs, node)
    else Concludes(inputs, vs, need, o)
  }

  ghost predicate SkipsAs(inputs: seq<Coin>, vs: seq<Verdict>, o: Outcome)
    requires |inputs| == |vs| && o.Skip?
  {
    && Keys(o.coins) + Keys(o.ghosts) == Unproven(inputs, vs)
    && {o.class_} + (if o.ghosts != [] then {Ghosts} else {}) == ReasonsOf(vs) && o.coins != [] && (o.class_ == Ghosts ==> o.ghosts == o.coins)
  }

  // How the rounds from the i-th on end, and with what excluded. There are three: a round that skips hands its exclusions
  // and the values it proved to the next.
  ghost predicate Follows(utxos: seq<Utxo>, need: Option<int>, nodes: nat -> Node, i: nat, known: Known, exclude: set<Outpoint>, end: Outcome, final: set<Outpoint>)
    decreases 3 - i
  {
    if i >= 3 then end.Skip? && final == exclude
    else
      var target := FirstTarget(utxos, need, exclude);
      var inputs := PickedFor(utxos, target, exclude);
      var vs := VerdictsFor(inputs, nodes(i), known);
      if Selected(utxos, target, exclude).Some? && Skippable(vs) then
        Follows(utxos, need, nodes, i + 1, Learn(known, inputs, nodes(i)), exclude + Unproven(inputs, vs), end, final)
      else final == exclude && if Selected(utxos, target, exclude).None? then end == NoSelection else Concludes(inputs, vs, target, end)
  }

  // A coin the node cannot prove costs a round, not the spend: the second round pays what the rest can cover.
  lemma SecondRoundPays(utxos: seq<Utxo>, need: int, nodes: nat -> Node, known1: Known, exclude: set<Outpoint>, exclude1: set<Outpoint>, end: Outcome, final: set<Outpoint>, inputs: seq<Coin>, total: int)
    requires Follows(utxos, Some(need), nodes, 0, map[], exclude, end, final) && SkipsTo(utxos, need, nodes(0), map[], exclude, known1, exclude1)
    requires Accepts(utxos, need, exclude1, nodes(1), known1, inputs, total)
    ensures end == Paid(inputs, total) && final == exclude1
  {
    hide Accepts, SkipsTo, Follows;
    SkipFollows(utxos, need, nodes, 0, map[], exclude, known1, exclude1, end, final);
    AcceptsConcludes(utxos, need, nodes, 1, known1, exclude1, end, final, inputs, total);
  }

  lemma AcceptsConcludes(utxos: seq<Utxo>, need: int, nodes: nat -> Node, i: nat, known: Known, exclude: set<Outpoint>, end: Outcome, final: set<Outpoint>, inputs: seq<Coin>, total: int)
    requires i < 3 && Follows(utxos, Some(need), nodes, i, known, exclude, end, final) && Accepts(utxos, need, exclude, nodes(i), known, inputs, total)
    ensures end == Paid(inputs, total) && final == exclude
  {
    hide Selected, Learn, Unproven, Total;
  }

  // And the third after two that skipped.
  lemma ThirdRoundPays(utxos: seq<Utxo>, need: int, nodes: nat -> Node, known1: Known, known2: Known, exclude: set<Outpoint>, exclude1: set<Outpoint>, exclude2: set<Outpoint>,
                       end: Outcome, final: set<Outpoint>, inputs: seq<Coin>, total: int)
    requires Follows(utxos, Some(need), nodes, 0, map[], exclude, end, final)
    requires SkipsTo(utxos, need, nodes(0), map[], exclude, known1, exclude1) && SkipsTo(utxos, need, nodes(1), known1, exclude1, known2, exclude2)
    requires Accepts(utxos, need, exclude2, nodes(2), known2, inputs, total)
    ensures end == Paid(inputs, total) && final == exclude2
  {
    hide Accepts, SkipsTo, Follows;
    SkipFollows(utxos, need, nodes, 0, map[], exclude, known1, exclude1, end, final);
    SkipFollows(utxos, need, nodes, 1, known1, exclude1, known2, exclude2, end, final);
    AcceptsConcludes(utxos, need, nodes, 2, known2, exclude2, end, final, inputs, total);
  }

  // After three that skipped there is no fourth: the spend is refused for the node's lack of proof, whatever is left.
  lemma NoFourthRound(utxos: seq<Utxo>, need: int, nodes: nat -> Node, known1: Known, known2: Known, known3: Known,
                      exclude: set<Outpoint>, exclude1: set<Outpoint>, exclude2: set<Outpoint>, exclude3: set<Outpoint>, standing: set<Skipped>, end: Outcome, final: set<Outpoint>, f: Funds)
    requires Ends(utxos, Some(need), nodes, map[], exclude, standing, end, final, f)
    requires SkipsTo(utxos, need, nodes(0), map[], exclude, known1, exclude1) && SkipsTo(utxos, need, nodes(1), known1, exclude1, known2, exclude2)
    requires SkipsTo(utxos, need, nodes(2), known2, exclude2, known3, exclude3)
    ensures f == Refused(Unavailable) && final == exclude3
  {
    hide SkipsTo, Follows, Reasons;
    SkipFollows(utxos, need, nodes, 0, map[], exclude, known1, exclude1, end, final);
    SkipFollows(utxos, need, nodes, 1, known1, exclude1, known2, exclude2, end, final);
    SkipFollows(utxos, need, nodes, 2, known2, exclude2, known3, exclude3, end, final);
    BudgetSpent(utxos, need, nodes, known3, exclude3, end, final);
  }

  lemma BudgetSpent(utxos: seq<Utxo>, need: int, nodes: nat -> Node, known: Known, exclude: set<Outpoint>, end: Outcome, final: set<Outpoint>)
    requires Follows(utxos, Some(need), nodes, 3, known, exclude, end, final)
    ensures end.Skip? && final == exclude
  {
  }

  // A round that skips, by what it keeps: the values proved, and what is not proved excluded.
  ghost predicate SkipsTo(utxos: seq<Utxo>, need: int, node: Node, known: Known, exclude: set<Outpoint>, known': Known, exclude': set<Outpoint>) {
    && Selected(utxos, need, exclude).Some?
    && var inputs := Selected(utxos, need, exclude).value.inputs;
       var vs := VerdictsFor(inputs, node, known);
       Skippable(vs) && known' == Learn(known, inputs, node) && exclude' == exclude + Unproven(inputs, vs)
  }

  lemma SkipFollows(utxos: seq<Utxo>, need: int, nodes: nat -> Node, i: nat, known: Known, exclude: set<Outpoint>, known': Known, exclude': set<Outpoint>, end: Outcome, final: set<Outpoint>)
    requires i < 3 && Follows(utxos, Some(need), nodes, i, known, exclude, end, final) && SkipsTo(utxos, need, nodes(i), known, exclude, known', exclude')
    ensures Follows(utxos, Some(need), nodes, i + 1, known', exclude', end, final)
  {
    hide Selected, Learn, Unproven, Total;
  }

  // Why coins were skipped along the way.
  ghost function Reasons(utxos: seq<Utxo>, need: Option<int>, nodes: nat -> Node, i: nat, known: Known, exclude: set<Outpoint>): set<Skipped>
    decreases 3 - i
  {
    if i >= 3 then {}
    else
      var target := FirstTarget(utxos, need, exclude);
      var inputs := PickedFor(utxos, target, exclude);
      var vs := VerdictsFor(inputs, nodes(i), known);
      if Selected(utxos, target, exclude).Some? && Skippable(vs) then
        ReasonsOf(vs) + Reasons(utxos, need, nodes, i + 1, Learn(known, inputs, nodes(i)), exclude + Unproven(inputs, vs))
      else {}
  }

  // What the rounds left say is what all of them say, with `seen` the reasons so far.
  ghost predicate LeadsTo(utxos: seq<Utxo>, need: Option<int>, nodes: nat -> Node, known: Known, exclude: set<Outpoint>, seen: set<Skipped>, i: nat, known': Known, exclude': set<Outpoint>) {
    && (forall e, f :: Follows(utxos, need, nodes, i, known', exclude', e, f) ==> Follows(utxos, need, nodes, 0, known, exclude, e, f))
    && seen + Reasons(utxos, need, nodes, i, known', exclude') == Reasons(utxos, need, nodes, 0, known, exclude)
  }

  lemma LeadsHere(utxos: seq<Utxo>, need: Option<int>, nodes: nat -> Node, known: Known, exclude: set<Outpoint>)
    ensures LeadsTo(utxos, need, nodes, known, exclude, {}, 0, known, exclude)
  {
    hide Follows, Reasons;
  }

  lemma NoRoundLeft(utxos: seq<Utxo>, need: Option<int>, nodes: nat -> Node, known: Known, exclude: set<Outpoint>, seen: set<Skipped>, known': Known, exclude': set<Outpoint>, end: Outcome)
    requires end.Skip? && LeadsTo(utxos, need, nodes, known, exclude, seen, 3, known', exclude')
    ensures Follows(utxos, need, nodes, 0, known, exclude, end, exclude') && seen == Reasons(utxos, need, nodes, 0, known, exclude)
  {
    assert Follows(utxos, need, nodes, 3, known', exclude', end, exclude') && Reasons(utxos, need, nodes, 3, known', exclude') == {};
    hide Follows, Reasons;
  }

  lemma RoundLeads(utxos: seq<Utxo>, need: Option<int>, nodes: nat -> Node, known: Known, exclude: set<Outpoint>, seen: set<Skipped>, i: nat, known': Known, exclude': set<Outpoint>,
                   o: Outcome, learnt: Known, next: set<Outpoint>)
    requires LeadsTo(utxos, need, nodes, known, exclude, seen, i, known', exclude')
    requires i < 3 && Attempted(utxos, FirstTarget(utxos, need, exclude'), exclude', nodes(i), known', o, learnt)
    requires o.Skip? ==> next == exclude' + Keys(o.coins) + Keys(o.ghosts)
    ensures !o.Skip? ==> Follows(utxos, need, nodes, 0, known, exclude, o, exclude') && seen == Reasons(utxos, need, nodes, 0, known, exclude)
    ensures o.Skip? ==> o.coins != [] && (o.class_ == Ghosts ==> o.ghosts != []) && LeadsTo(utxos, need, nodes, known, exclude, seen + {o.class_} + (if o.ghosts != [] then {Ghosts} else {}), i + 1, learnt, next)
  {
    hide Follows, Reasons, Attempted, Keys, FirstTarget, Selected;
    FollowsRound(utxos, need, nodes, i, known', exclude', o, learnt, next);
    if o.Skip? {
      Regrouped(seen, {o.class_}, if o.ghosts != [] then {Ghosts} else {}, Reasons(utxos, need, nodes, i + 1, learnt, next));
    }
  }

  // Which counts are positive after coins were skipped for `seen` reasons.
  ghost predicate Adds(counts: Counts, seen: set<Skipped>, counts': Counts) {
    && (counts'.ghosts > 0 <==> counts.ghosts > 0 || Ghosts in seen)
    && (counts'.horizons > 0 <==> counts.horizons > 0 || Horizons in seen)
    && (counts'.unreps > 0 <==> counts.unreps > 0 || Unrepresentables in seen)
  }

  // How a selection ends: as its rounds do, and with nothing selected by the reasons coins were skipped, in this call or
  // lately before it.
  ghost predicate Ends(utxos: seq<Utxo>, need: Option<int>, nodes: nat -> Node, known: Known, live: set<Outpoint>, standing: set<Skipped>, end: Outcome, final: set<Outpoint>, f: Funds) {
    && Follows(utxos, need, nodes, 0, known, live, end, final)
    && match end
       case Paid(inputs, total) => f == Funds(inputs, total)
       case Fault(code) => f == Refused(code)
       case Skip(_, _, _) => f == Refused(Unavailable)
       case NoSelection => f == Refused(NoneBecause(Eligible(utxos, final), FirstTarget(utxos, need, final), standing + Reasons(utxos, need, nodes, 0, known, live)))
  }

  ghost function NoneBecause(left: seq<Coin>, target: int, why: set<Skipped>): Code {
    if (if Sum(left) <= MAX_SAFE then Sum(left) else 0) >= target then TooManyInputs
    else if Horizons in why then BeyondHorizon
    else if Unrepresentables in why then NotRepresentable
    else if Ghosts in why then GhostsSkipped
    else Insufficient
  }

  lemma ReportedIs(utxos: seq<Utxo>)
    ensures ReportedKeys(utxos) == set u | u in utxos :: u.at
  {
  }

  lemma StandingCounts(ghosts: set<Outpoint>, horizons: set<Outpoint>, unreps: set<Outpoint>, reported: set<Outpoint>, standing: set<Skipped>, counts: Counts)
    requires counts == Counts(|ghosts * reported|, |horizons * reported|, |unreps * reported|)
    requires standing == Meeting(ghosts, horizons, unreps, reported)
    ensures Adds(Counts(0, 0, 0), standing, counts)
  {
  }

  lemma EndsAs(utxos: seq<Utxo>, need: Option<int>, nodes: nat -> Node, known: Known, live: set<Outpoint>, standing: set<Skipped>, end: Outcome, final: set<Outpoint>, f: Funds,
               target: int, counts: Counts, counts': Counts)
    requires Follows(utxos, need, nodes, 0, known, live, end, final)
    requires Adds(Counts(0, 0, 0), standing, counts) && Adds(counts, Reasons(utxos, need, nodes, 0, known, live), counts')
    requires match end
      case Paid(inputs, total) => f == Funds(inputs, total)
      case Fault(code) => f == Refused(code)
      case _ => f.Refused? && Diagnosed(utxos, target, final, end.NoSelection?, counts', f.code) && (end.NoSelection? ==> target == FirstTarget(utxos, need, final))
    ensures Ends(utxos, need, nodes, known, live, standing, end, final, f)
  {
    hide Follows, Reasons, Eligible, FirstTarget, Diagnosed, NoneBecause, Adds;
    if end.Skip? { SkipHasReason(utxos, need, nodes, known, live, end, final); }
    if end.Skip? || end.NoSelection? {
      DiagnosedIs(utxos, target, final, end.NoSelection?, standing, Reasons(utxos, need, nodes, 0, known, live), counts, counts', f.code);
    }
  }

  lemma DiagnosedIs(utxos: seq<Utxo>, target: int, exclude: set<Outpoint>, exhausted: bool, standing: set<Skipped>, reasons: set<Skipped>, counts: Counts, counts': Counts, code: Code)
    requires Adds(Counts(0, 0, 0), standing, counts) && Adds(counts, reasons, counts') && Diagnosed(utxos, target, exclude, exhausted, counts', code)
    ensures exhausted ==> code == NoneBecause(Eligible(utxos, exclude), target, standing + reasons)
    ensures !exhausted && reasons != {} ==> code == Unavailable
  {
    hide Eligible, Sum;
    EligibleHasWorth(utxos, exclude);
    if !exhausted && reasons != {} {
      var r :| r in reasons;
      match r case Ghosts => case Horizons => case Unrepresentables =>
    }
  }

  lemma EligibleHasWorth(utxos: seq<Utxo>, exclude: set<Outpoint>)
    ensures Sum(Eligible(utxos, exclude)) >= 0
  {
    EligibleDistinct(utxos, exclude);
    var coins := Eligible(utxos, exclude);
    SumGrows(coins, 0, |coins|);
    assert coins[..|coins|] == coins && coins[..0] == [];
  }

  lemma SkipHasReason(utxos: seq<Utxo>, need: Option<int>, nodes: nat -> Node, known: Known, live: set<Outpoint>, end: Outcome, final: set<Outpoint>)
    requires Follows(utxos, need, nodes, 0, known, live, end, final) && end.Skip?
    ensures Reasons(utxos, need, nodes, 0, known, live) != {}
  {
    hide Selected, FirstTarget, Learn, Unproven, Total;
    var r := Reasons(utxos, need, nodes, 0, known, live);
    var vs := VerdictsFor(PickedFor(utxos, FirstTarget(utxos, need, live), live), nodes(0), known);
    assert ReasonsOf(vs) <= r;
    assert (if Horizon in vs then Horizons else if Unrepresentable in vs then Unrepresentables else Ghosts) in ReasonsOf(vs);
  }

  // Why nothing was selected, from the counts of what was skipped.
  ghost predicate Diagnosed(utxos: seq<Utxo>, target: int, exclude: set<Outpoint>, exhausted: bool, counts: Counts, code: Code) {
    var tooMany, none := exhausted && Spare(Eligible(utxos, exclude)) >= target, counts == Counts(0, 0, 0);
    && (code == TooManyInputs <==> tooMany)
    && (code == Insufficient <==> !tooMany && none)
    && (code == Unavailable <==> !exhausted && !none)
    && (code == BeyondHorizon <==> exhausted && !tooMany && counts.horizons > 0)
    && (code == NotRepresentable <==> exhausted && !tooMany && counts.horizons == 0 && counts.unreps > 0)
    && (code == GhostsSkipped <==> exhausted && !tooMany && counts.horizons == 0 && counts.unreps == 0 && counts.ghosts > 0)
  }

  // Where the rounds stand after `i` of them.
  ghost predicate Rounding(utxos: seq<Utxo>, need: Option<int>, nodes: nat -> Node, known: Known, exclude: set<Outpoint>, counts: Counts, seen: set<Skipped>, i: nat, known': Known, exclude': set<Outpoint>, counts': Counts) {
    && LeadsTo(utxos, need, nodes, known, exclude, seen, i, known', exclude') && Adds(counts, seen, counts')
    && (i == 0 ==> known' == known && exclude' == exclude)
    && (i > 0 ==> Open(utxos, FirstTarget(utxos, need, exclude), exclude, nodes(0), known))
  }

  lemma RoundsStart(utxos: seq<Utxo>, need: Option<int>, nodes: nat -> Node, known: Known, exclude: set<Outpoint>, counts: Counts)
    ensures Rounding(utxos, need, nodes, known, exclude, counts, {}, 0, known, exclude, counts)
  {
    hide Open, LeadsTo;
    LeadsHere(utxos, need, nodes, known, exclude);
  }

  lemma RoundEnds(utxos: seq<Utxo>, need: Option<int>, nodes: nat -> Node, known: Known, exclude: set<Outpoint>, counts: Counts, seen: set<Skipped>, i: nat, known': Known, exclude': set<Outpoint>, counts': Counts,
                  o: Outcome, learnt: Known, excluded: set<Outpoint>)
    requires Rounding(utxos, need, nodes, known, exclude, counts, seen, i, known', exclude', counts') && i < 3 && !o.Skip?
    requires var target := FirstTarget(utxos, need, exclude'); Attempted(utxos, target, exclude', nodes(i), known', o, learnt) && Tried(utxos, target, exclude', nodes(i), known', o, learnt)
    requires i == 0 ==> excluded == exclude
    ensures Follows(utxos, need, nodes, 0, known, exclude, o, exclude') && Adds(counts, Reasons(utxos, need, nodes, 0, known, exclude), counts')
    ensures Decided(utxos, FirstTarget(utxos, need, exclude), exclude, nodes(0), known, o, excluded)
    ensures o.Paid? ==> GoodFunds(o.inputs, o.total, FirstTarget(utxos, need, exclude')) && PaidBy(utxos, FirstTarget(utxos, need, exclude'), exclude', o.inputs, learnt)
  {
    hide Open, LeadsTo, Follows, Reasons, Attempted, Tried, Adds, FirstTarget, Decided, GoodFunds, PaidBy, Keys;
    RoundLeads(utxos, need, nodes, known, exclude, seen, i, known', exclude', o, learnt, {});
    var target := FirstTarget(utxos, need, exclude');
    if o.Paid? { TriedPays(utxos, target, exclude', nodes(i), known', o, learnt); }
    if i == 0 { FirstDecides(utxos, target, exclude, nodes(0), known, o, learnt); }
    else { OpenDecides(utxos, FirstTarget(utxos, need, exclude), exclude, nodes(0), known, o, excluded); }
  }

  lemma RoundSkips(utxos: seq<Utxo>, need: Option<int>, nodes: nat -> Node, known: Known, exclude: set<Outpoint>, counts: Counts, seen: set<Skipped>, i: nat, known': Known, exclude': set<Outpoint>, counts': Counts,
                   o: Outcome, learnt: Known, next: set<Outpoint>)
    requires Rounding(utxos, need, nodes, known, exclude, counts, seen, i, known', exclude', counts') && i < 3 && o.Skip?
    requires var target := FirstTarget(utxos, need, exclude'); Attempted(utxos, target, exclude', nodes(i), known', o, learnt) && Tried(utxos, target, exclude', nodes(i), known', o, learnt)
    requires next == exclude' + Keys(o.coins) + Keys(o.ghosts)
    ensures Rounding(utxos, need, nodes, known, exclude, counts, seen + {o.class_} + (if o.ghosts != [] then {Ghosts} else {}), i + 1, learnt, next, Added(counts', o))
  {
    hide Open, LeadsTo, Follows, Reasons, Attempted, Tried, Adds, Added, FirstTarget, Keys;
    RoundLeads(utxos, need, nodes, known, exclude, seen, i, known', exclude', o, learnt, next);
    AddsMore(counts, seen, counts', o);
    if i == 0 { FirstDecides(utxos, FirstTarget(utxos, need, exclude), exclude, nodes(0), known, o, learnt); }
  }

  lemma RoundsSpent(utxos: seq<Utxo>, need: Option<int>, nodes: nat -> Node, known: Known, exclude: set<Outpoint>, counts: Counts, seen: set<Skipped>, known': Known, exclude': set<Outpoint>, counts': Counts,
                    o: Outcome, excluded: set<Outpoint>)
    requires Rounding(utxos, need, nodes, known, exclude, counts, seen, 3, known', exclude', counts') && o.Skip?
    ensures Follows(utxos, need, nodes, 0, known, exclude, o, exclude') && Adds(counts, Reasons(utxos, need, nodes, 0, known, exclude), counts')
    ensures Decided(utxos, FirstTarget(utxos, need, exclude), exclude, nodes(0), known, o, excluded)
  {
    hide Open, LeadsTo, Follows, Reasons, Adds, FirstTarget, Decided;
    NoRoundLeft(utxos, need, nodes, known, exclude, seen, known', exclude', o);
    OpenDecides(utxos, FirstTarget(utxos, need, exclude), exclude, nodes(0), known, o, excluded);
  }

  lemma Regrouped(a: set<Skipped>, b: set<Skipped>, c: set<Skipped>, d: set<Skipped>)
    ensures a + (b + c + d) == a + b + c + d
  {
  }

  function Added(counts: Counts, o: Outcome): Counts
    requires o.Skip?
  {
    Counts(counts.ghosts + |o.ghosts|, counts.horizons + if o.class_ == Horizons then |o.coins| else 0,
           counts.unreps + if o.class_ == Unrepresentables then |o.coins| else 0)
  }

  lemma AddsMore(counts: Counts, seen: set<Skipped>, counts': Counts, o: Outcome)
    requires Adds(counts, seen, counts') && o.Skip? && o.coins != [] && (o.class_ == Ghosts ==> o.ghosts != [])
    ensures Adds(counts, seen + {o.class_} + (if o.ghosts != [] then {Ghosts} else {}), Added(counts', o))
  {
  }

  // A round taken off the front.
  lemma FollowsRound(utxos: seq<Utxo>, need: Option<int>, nodes: nat -> Node, i: nat, known: Known, exclude: set<Outpoint>, o: Outcome, known': Known, exclude': set<Outpoint>)
    requires i < 3 && Attempted(utxos, FirstTarget(utxos, need, exclude), exclude, nodes(i), known, o, known')
    requires o.Skip? ==> exclude' == exclude + Keys(o.coins) + Keys(o.ghosts)
    ensures !o.Skip? ==> Follows(utxos, need, nodes, i, known, exclude, o, exclude) && Reasons(utxos, need, nodes, i, known, exclude) == {}
    ensures o.Skip? ==> o.coins != [] && (o.class_ == Ghosts ==> o.ghosts != []) && Reasons(utxos, need, nodes, i, known, exclude)
                        == {o.class_} + (if o.ghosts != [] then {Ghosts} else {}) + Reasons(utxos, need, nodes, i + 1, known', exclude')
    ensures o.Skip? ==> forall e, f :: Follows(utxos, need, nodes, i + 1, known', exclude', e, f) ==> Follows(utxos, need, nodes, i, known, exclude, e, f)
  {
    hide Selected, FirstTarget, VerdictsFor, Learn, Keys, Total, ReasonsOf, Unproven;
    if o.Skip? {
      var inputs := PickedFor(utxos, FirstTarget(utxos, need, exclude), exclude);
      assert exclude' == exclude + Unproven(inputs, VerdictsFor(inputs, nodes(i), known));
    }
  }

  class Spender {
    const caches: SkipCaches

    constructor ()
      ensures fresh(caches) && caches.Valid() && caches.Excluded() == {}
    {
      caches := new SkipCaches();
    }

    // Files every coin of `coins` under its reason and excludes it.
    method Exclude(into: Skipped, coins: seq<Coin>, exclude: set<Outpoint>, now: int) returns (exclude': set<Outpoint>)
      requires caches.Valid() && caches.Excluded() <= exclude
      modifies caches
      ensures caches.Valid() && caches.Excluded() <= exclude' && exclude' == exclude + Keys(coins)
      ensures old(caches.Excluded()) == exclude && |exclude'| <= SKIP_CACHE_MAX ==> caches.Excluded() == exclude'
      ensures forall t :: t < now + GHOST_TTL_MS && old(caches.NoneExpires(t)) ==> caches.NoneExpires(t)
    {
      hide SkipCaches.Valid, SkipCaches.Excluded, SkipCaches.NoneExpires;
      exclude' := exclude;
      assert exclude == exclude + Keys(coins[..0]);
      for i := 0 to |coins|
        invariant caches.Valid() && caches.Excluded() <= exclude' && exclude' == exclude + Keys(coins[..i])
        invariant old(caches.Excluded()) == exclude && |exclude'| <= SKIP_CACHE_MAX ==> caches.Excluded() == exclude'
        invariant forall t :: t < now + GHOST_TTL_MS && old(caches.NoneExpires(t)) ==> caches.NoneExpires(t)
      {
        KeysSnoc(coins, i, exclude);
        SetSize(exclude', exclude' + {coins[i].at});
        hide Keys;
        exclude' := exclude' + {coins[i].at};
        caches.RememberSkip(into, coins[i].at, now);
      }
      assert coins[..|coins|] == coins;
    }

    // One round: what an attempt leaves unproven is filed and excluded.
    method Round(utxos: seq<Utxo>, need: int, exclude: set<Outpoint>, node: Node, known: Known, now: int)
      returns (o: Outcome, exclude': set<Outpoint>, known': Known)
      requires caches.Valid() && caches.Excluded() <= exclude && TrueKnown(known)
      modifies caches
      ensures caches.Valid() && caches.Excluded() <= exclude' && exclude <= exclude' <= exclude + ReportedKeys(utxos)
      ensures old(caches.Excluded()) == exclude && |exclude'| <= SKIP_CACHE_MAX ==> caches.Excluded() == exclude'
      ensures forall t :: t < now + GHOST_TTL_MS && old(caches.NoneExpires(t)) ==> caches.NoneExpires(t)
      ensures TrueKnown(known') && (FromNode(known, node) ==> FromNode(known', node))
      ensures Tried(utxos, need, exclude, node, known, o, known') && Attempted(utxos, need, exclude, node, known, o, known')
      ensures !o.Skip? ==> exclude' == exclude && caches.Excluded() == old(caches.Excluded())
      ensures o.Skip? ==> exclude' == exclude + Keys(o.coins) + Keys(o.ghosts)
    {
      hide SkipCaches.Valid, SkipCaches.Excluded, SkipCaches.NoneExpires, Tried, Attempted, TrueKnown, FromNode, Keys, ReportedKeys;
      o, known' := Attempt(utxos, need, exclude, node, known);
      exclude' := exclude;
      if o.Skip? {
        exclude' := Exclude(o.class_, o.coins, exclude, now);
        SetSize(exclude', exclude' + Keys(o.ghosts));
        exclude' := Exclude(Ghosts, o.ghosts, exclude', now);
      }
    }

    // selectVerified: at most three rounds, then the reason nothing could be selected. `need` is the target, or None
    // for the largest one each round allows.
    method SelectVerified(report: Option<seq<Utxo>>, now: int, need: Option<int>, nodes: nat -> Node, known: Known)
      returns (f: Funds, target: int, known': Known, exclude: set<Outpoint>)
      requires caches.Valid() && TrueKnown(known)
      modifies caches
      ensures caches.Valid() && TrueKnown(known')
      ensures forall t :: t < now + GHOST_TTL_MS && old(caches.NoneExpires(t)) ==> caches.NoneExpires(t)
      ensures (forall i :: nodes(i) == nodes(0)) && FromNode(known, nodes(0)) ==> FromNode(known', nodes(0))
      ensures f.Funds? ==> report.Some? && GoodFunds(f.inputs, f.total, target) && PaidBy(report.value, target, exclude, f.inputs, known')
      ensures f.Funds? ==> target == if need.Some? then need.value else MaxTarget(report.value, exclude)
      ensures report.Some? && old(caches.NoneExpires(now)) && |old(caches.Excluded()) + ReportedKeys(report.value)| <= SKIP_CACHE_MAX ==>
        caches.Excluded() == exclude
      ensures report.None? ==> f == Refused(Unavailable)
      ensures report.Some? ==> exists end :: Ends(report.value, need, nodes, known, old(caches.Live(now)), old(caches.Standing(now, ReportedKeys(report.value))), end, exclude, f)
      ensures report.Some? && old(caches.NoneExpires(now)) ==>
        FirstRoundDecides(report.value, FirstTarget(report.value, need, old(caches.Excluded())), old(caches.Excluded()), nodes(0), known, f, caches.Excluded())
    {
      target, known', exclude := if need.Some? then need.value else 0, known, {};
      if report.None? { return Refused(Unavailable), target, known', exclude; }
      var utxos := report.value;
      hide SkipCaches.Valid, SkipCaches.Excluded, SkipCaches.NoneExpires, TrueKnown, FromNode, ReportedKeys, GoodFunds, PaidBy, Unexpired, Lasts, FirstRoundDecides, MaxTarget, LiveKeys, Ends, Meeting;
      ghost var standing := caches.Standing(now, ReportedKeys(utxos));
      var excluded := caches.SessionExclusions(now);
      assert standing == Meeting(caches.ghosts.Keys, caches.horizons.Keys, caches.unreps.Keys, ReportedKeys(utxos));
      ghost var end;
      end, f, target, known', exclude := SelectReported(utxos, now, need, nodes, known, excluded);
    }

    // The same over a report, from the coins still excluded.
    method SelectReported(utxos: seq<Utxo>, now: int, need: Option<int>, nodes: nat -> Node, known: Known, excluded: set<Outpoint>)
      returns (ghost end: Outcome, f: Funds, target: int, known': Known, final: set<Outpoint>)
      requires caches.Valid() && TrueKnown(known) && caches.Excluded() == excluded
      modifies caches
      ensures caches.Valid() && TrueKnown(known')
      ensures forall t :: t < now + GHOST_TTL_MS && old(caches.NoneExpires(t)) ==> caches.NoneExpires(t)
      ensures (forall i :: nodes(i) == nodes(0)) && FromNode(known, nodes(0)) ==> FromNode(known', nodes(0))
      ensures f.Funds? ==> GoodFunds(f.inputs, f.total, target) && PaidBy(utxos, target, final, f.inputs, known')
      ensures f.Funds? ==> target == FirstTarget(utxos, need, final)
      ensures |excluded + ReportedKeys(utxos)| <= SKIP_CACHE_MAX ==> caches.Excluded() == final
      ensures Ends(utxos, need, nodes, known, excluded, old(Meeting(caches.ghosts.Keys, caches.horizons.Keys, caches.unreps.Keys, ReportedKeys(utxos))), end, final, f)
      ensures FirstRoundDecides(utxos, FirstTarget(utxos, need, excluded), excluded, nodes(0), known, f, caches.Excluded())
    {
      hide SkipCaches.Valid, SkipCaches.Excluded, SkipCaches.NoneExpires, TrueKnown, FromNode, ReportedKeys, GoodFunds, PaidBy, Decided, FirstRoundDecides, Adds, Reasons, Follows, Ends, Meeting, FirstTarget, Diagnosed;
      ghost var standing := Meeting(caches.ghosts.Keys, caches.horizons.Keys, caches.unreps.Keys, ReportedKeys(utxos));
      ReportedIs(utxos);
      var counts := caches.CountReported(set u | u in utxos :: u.at);
      StandingCounts(caches.ghosts.Keys, caches.horizons.Keys, caches.unreps.Keys, ReportedKeys(utxos), standing, counts);
      var o, exclude, counts', rounds;
      o, target, known', exclude, final, counts', rounds := Rounds(utxos, now, need, nodes, known, excluded, counts);
      end := o;
      match o {
        case Paid(inputs, total) => f := Funds(inputs, total);
        case Fault(code) => f := Refused(code);
        case _ =>
          var reason := Diagnose(utxos, target, exclude, o.NoSelection?, counts');
          f := Refused(reason);
      }
      EndsAs(utxos, need, nodes, known, excluded, standing, o, final, f, target, counts, counts');
      DecidedIsFirst(utxos, FirstTarget(utxos, need, excluded), excluded, nodes(0), known, o, caches.Excluded(), f);
    }

    // The bounded rounds. Their end is a payment, a fault, no selection, or (still skipping) the round budget spent.
    method Rounds(utxos: seq<Utxo>, now: int, need: Option<int>, nodes: nat -> Node, known: Known, exclude: set<Outpoint>, counts: Counts)
      returns (end: Outcome, target: int, known': Known, exclude': set<Outpoint>, final: set<Outpoint>, counts': Counts, rounds: nat)
      requires caches.Valid() && TrueKnown(known) && caches.Excluded() == exclude
      modifies caches
      ensures caches.Valid() && TrueKnown(known')
      ensures forall t :: t < now + GHOST_TTL_MS && old(caches.NoneExpires(t)) ==> caches.NoneExpires(t)
      ensures (forall i :: nodes(i) == nodes(0)) && FromNode(known, nodes(0)) ==> FromNode(known', nodes(0))
      ensures end.Paid? ==> GoodFunds(end.inputs, end.total, target) && PaidBy(utxos, target, final, end.inputs, known')
      ensures !end.Skip? ==> target == FirstTarget(utxos, need, final)
      ensures |exclude + ReportedKeys(utxos)| <= SKIP_CACHE_MAX ==> caches.Excluded() == final
      ensures Decided(utxos, FirstTarget(utxos, need, exclude), exclude, nodes(0), known, end, caches.Excluded())
      ensures 1 <= rounds <= 3 && (end.Skip? ==> rounds == 3)
      ensures Follows(utxos, need, nodes, 0, known, exclude, end, final) && exclude' == final
      ensures Adds(counts, Reasons(utxos, need, nodes, 0, known, exclude), counts')
    {
      hide SkipCaches.Valid, SkipCaches.Excluded, SkipCaches.NoneExpires, TrueKnown, FromNode, ReportedKeys, GoodFunds, PaidBy, Tried, Decided, Attempted, Follows, Reasons, Adds, Added, Rounding, Keys, MaxTarget;
      target, known', exclude', counts' := if need.Some? then need.value else 0, known, exclude, counts;
      ghost var all := exclude + ReportedKeys(utxos);
      ghost var seen: set<Skipped> := {};
      end := NoSelection;
      rounds := 0;
      RoundsStart(utxos, need, nodes, known, exclude, counts);
      while rounds < MAX_SELECT_ROUNDS
        invariant rounds <= MAX_SELECT_ROUNDS
        invariant caches.Valid() && TrueKnown(known')
        invariant forall t :: t < now + GHOST_TTL_MS && old(caches.NoneExpires(t)) ==> caches.NoneExpires(t)
        invariant (forall i :: nodes(i) == nodes(0)) && FromNode(known, nodes(0)) ==> FromNode(known', nodes(0))
        invariant exclude' <= all && caches.Excluded() <= exclude'
        invariant |all| <= SKIP_CACHE_MAX ==> caches.Excluded() == exclude'
        invariant need.Some? ==> target == need.value
        invariant rounds == 0 ==> exclude' == exclude && caches.Excluded() == exclude
        invariant rounds > 0 ==> end.Skip?
        invariant Rounding(utxos, need, nodes, known, exclude, counts, seen, rounds, known', exclude', counts')
        decreases MAX_SELECT_ROUNDS - rounds
      {
        if need.None? { target := MaxTarget(utxos, exclude'); }
        assert target == FirstTarget(utxos, need, exclude');
        var next, learnt;
        end, next, learnt := Round(utxos, target, exclude', nodes(rounds), known', now);
        SetSize(next, all);
        if !end.Skip? {
          RoundEnds(utxos, need, nodes, known, exclude, counts, seen, rounds, known', exclude', counts', end, learnt, caches.Excluded());
          known', rounds, final := learnt, rounds + 1, exclude';
          return;
        }
        RoundSkips(utxos, need, nodes, known, exclude, counts, seen, rounds, known', exclude', counts', end, learnt, next);
        seen := seen + {end.class_} + if end.ghosts != [] then {Ghosts} else {};
        known', exclude', counts', rounds := learnt, next, Added(counts', end), rounds + 1;
      }
      final := exclude';
      RoundsSpent(utxos, need, nodes, known, exclude, counts, seen, known', final, counts', end, caches.Excluded());
    }

    // Why no selection was made. A cap blocked it only when the coins left would cover the target.
    method Diagnose(utxos: seq<Utxo>, target: int, exclude: set<Outpoint>, exhausted: bool, counts: Counts) returns (code: Code)
      ensures Diagnosed(utxos, target, exclude, exhausted, counts, code)
    {
      if exhausted {
        var coins := SpendableCoins(utxos, exclude);
        EligibleDistinct(utxos, exclude);
        var spendable := SafeSum(coins);
        if spendable >= target { return TooManyInputs; }
      }
      if counts == Counts(0, 0, 0) { return Insufficient; }
      if !exhausted { return Unavailable; }
      code := if counts.horizons > 0 then BeyondHorizon else if counts.unreps > 0 then NotRepresentable else GhostsSkipped;
    }

    // assembleValueTx, up to signing: what is signed pays the payments, the declared fee and nothing else, and returns
    // the rest to the signer. `far` is what a sum past the safe range rounds to.
    method AssembleValueTx(payments: seq<Payment>, fee: int, self: Address, far: int, report: Option<seq<Utxo>>, now: int, nodes: nat -> Node)
      returns (r: Result<Spend, Code>)
      requires caches.Valid() && far > MAX_SAFE && PaySum(payments) >= 0
      modifies caches
      ensures caches.Valid()
      ensures r.Ok? ==> SafeSpend(r.value, payments, fee, self)
      ensures SpendFollows(report, payments, fee, self, far, nodes, old(caches.Live(now)), old(caches.Standing(now, ReportIn(report))), r)
      ensures report.Some? && old(caches.NoneExpires(now)) ==>
        SendDecided(report.value, payments, fee, self, far, old(caches.Excluded()), nodes(0), r)
    {
      hide SkipCaches.Valid, SkipCaches.Excluded, SkipCaches.NoneExpires, Selected, Accepts, FromNode, Eligible, ReportedKeys, PaidBy, SafeSpend, SendDecided, GoodFunds, Ends, LiveKeys, Meeting, FirstRoundDecides;
      if !(fee > 0) {
        NotTried(payments, fee, self, far, Err(FeeTooLow));
        return Err(FeeTooLow);
      }
      if fee > MAX_FEE {
        NotTried(payments, fee, self, far, Err(FeeCap));
        return Err(FeeCap);
      }
      var payable := NoZeroAddress(payments);
      if !payable {
        NotTried(payments, fee, self, far, Err(ZeroAddress));
        return Err(ZeroAddress);
      }
      var need := Rounded(PaySum(payments) + fee, far);
      ghost var excluded := caches.Excluded();
      var f, _, _, _ := SelectVerified(report, now, Some(need), nodes, map[]);
      r := Built(f, payments, fee, self, need);
      BuiltFollows(report, payments, fee, self, far, need, f, r);
      if r.Ok? { BuiltIsSafe(f, payments, fee, self, far); }
      if report.Some? && old(caches.NoneExpires(now)) {
        BuiltDecides(report.value, payments, fee, self, far, excluded, nodes(0), f, caches.Excluded());
      }
    }

    // ---- The callers ----

    // send: one payment.
    method Send(to: Option<Address>, amount: int, fee: int, self: Address, far: int, report: Option<seq<Utxo>>, now: int, nodes: nat -> Node)
      returns (r: Result<Spend, Code>)
      requires caches.Valid() && far > MAX_SAFE
      modifies caches
      ensures caches.Valid()
      ensures r.Ok? ==> to.Some? && amount > 0 && SafeSpend(r.value, [Payment(amount, to.value)], fee, self)
      ensures to.Some? && amount > 0 && fee >= 0 && IsSafe(amount + fee) && report.Some? && old(caches.NoneExpires(now)) ==>
        SendDecided(report.value, [Payment(amount, to.value)], fee, self, far, old(caches.Excluded()), nodes(0), r)
      ensures if to.None? || amount <= 0 then r == Err(BadOutputs)
        else if !(IsSafe(fee) && 0 <= fee && amount + fee <= MAX_SAFE) then r == Err(BadFee)
        else SpendFollows(report, [Payment(amount, to.value)], fee, self, far, nodes, old(caches.Live(now)), old(caches.Standing(now, ReportIn(report))), r)
    {
      hide SkipCaches.Valid, SkipCaches.Excluded, SkipCaches.NoneExpires, SafeSpend, SendDecided, SpendFollows, LiveKeys, Meeting;
      if to.None? { return Err(BadOutputs); }
      if !(amount > 0) { return Err(BadOutputs); }
      if !IsSafe(amount) || !IsSafe(fee) || fee < 0 || !IsSafe(amount + fee) { return Err(BadFee); }
      OnePayment(amount, to.value);
      r := AssembleValueTx([Payment(amount, to.value)], fee, self, far, report, now, nodes);
    }

    // sendMany and fillOffer: validated outputs, their sum with the fee in the safe range. A fill may pay nothing.
    method SendMany(outs: seq<Out>, most: nat, minOne: bool, fee: int, self: Address, far: int, report: Option<seq<Utxo>>, now: int, nodes: nat -> Node)
      returns (r: Result<Spend, Code>)
      requires caches.Valid() && far > MAX_SAFE
      modifies caches
      ensures caches.Valid()
      ensures r.Ok? ==> ValidOutputs(outs, most, minOne) && SafeSpend(r.value, Payments(outs), fee, self)
      ensures ValidOutputs(outs, most, minOne) && fee >= 0 && IsSafe(PaySum(Payments(outs)) + fee) && report.Some? && old(caches.NoneExpires(now)) ==>
        SendDecided(report.value, Payments(outs), fee, self, far, old(caches.Excluded()), nodes(0), r)
      ensures if !ValidOutputs(outs, most, minOne) then r == Err(BadOutputs)
        else if !(IsSafe(fee) && 0 <= fee && PaySum(Payments(outs)) + fee <= MAX_SAFE) then r == Err(BadFee)
        else SpendFollows(report, Payments(outs), fee, self, far, nodes, old(caches.Live(now)), old(caches.Standing(now, ReportIn(report))), r)
    {
      hide SkipCaches.Valid, SkipCaches.Excluded, SkipCaches.NoneExpires, SafeSpend, SendDecided, SpendFollows, LiveKeys, Meeting;
      var sum := ValidateOutputs(outs, most, minOne);
      if sum.Err? { return Err(sum.error); }
      if !IsSafe(fee) || fee < 0 || !IsSafe(sum.value + fee) { return Err(BadFee); }
      r := AssembleValueTx(Payments(outs), fee, self, far, report, now, nodes);
    }

    // buildSignSubmit: at most eight payouts beside an app payload. It does not check the sum with the fee; a sum past
    // the safe range selects nothing.
    method BuildSignSubmit(payouts: seq<Out>, fee: int, self: Address, far: int, report: Option<seq<Utxo>>, now: int, nodes: nat -> Node)
      returns (r: Result<Spend, Code>)
      requires caches.Valid() && far > MAX_SAFE
      modifies caches
      ensures caches.Valid()
      ensures r.Ok? ==> ValidOutputs(payouts, 8, false) && SafeSpend(r.value, Payments(payouts), fee, self)
      ensures ValidOutputs(payouts, 8, false) && fee >= 0 && IsSafe(fee) && report.Some? && old(caches.NoneExpires(now)) ==>
        SendDecided(report.value, Payments(payouts), fee, self, far, old(caches.Excluded()), nodes(0), r)
      ensures if !(IsSafe(fee) && 0 <= fee) then r == Err(BadFee)
        else if !ValidOutputs(payouts, 8, false) then r == Err(BadOutputs)
        else SpendFollows(report, Payments(payouts), fee, self, far, nodes, old(caches.Live(now)), old(caches.Standing(now, ReportIn(report))), r)
    {
      hide SkipCaches.Valid, SkipCaches.Excluded, SkipCaches.NoneExpires, SafeSpend, SendDecided, SpendFollows, LiveKeys, Meeting;
      if !IsSafe(fee) || fee < 0 { return Err(BadFee); }
      var sum := ValidateOutputs(payouts, 8, false);
      if sum.Err? { return Err(sum.error); }
      r := AssembleValueTx(Payments(payouts), fee, self, far, report, now, nodes);
    }

    // Merges up to 512 coins, smallest first, into one output to the signer.
    method Consolidate(fee: int, self: Address, report: Option<seq<Utxo>>, now: int, nodes: nat -> Node)
      returns (r: Result<Spend, Code>, remaining: int)
      requires caches.Valid()
      modifies caches
      ensures caches.Valid()
      ensures r.Ok? ==> |r.value.inputs| >= 2 && |r.value.outputs| == 1 && SafeSpend(r.value, [], fee, self)
      ensures r.Ok? ==> remaining >= 0
      ensures if !(0 < fee <= MAX_SAFE) then r == Err(BadFee)
        else if fee > 10_000_000_000 then r == Err(FeeCap)
        else if report.None? then r == Err(Unavailable)
        else MergeFollows(report.value, fee, self, nodes, 0, map[], old(caches.Live(now)), r, remaining)
      ensures report.Some? && 0 < fee <= 10_000_000_000 ==>
        MergeDecided(report.value, old(caches.Live(now)), nodes(0), fee, self, r, remaining)
    {
      remaining := 0;
      if !(IsSafe(fee) && fee > 0) { return Err(BadFee), remaining; }
      if fee > MAX_FEE { return Err(FeeCap), remaining; }
      if report.None? { return Err(Unavailable), remaining; }
      var utxos := report.value;
      hide SkipCaches.Valid, SkipCaches.Excluded, SkipCaches.NoneExpires, SafeSpend, MergeDecided, MergeFollows, MergeLeads, MergeAttempted, Keys, TrueKnown, LiveKeys;
      assert TrueKnown(map[]) by { EmptyKnown(nodes(0)); }
      var exclude := caches.SessionExclusions(now);
      ghost var live := exclude;
      var known: Known := map[];
      MergeLeadsHere(utxos, fee, self, nodes, live);
      for round := 0 to MAX_SELECT_ROUNDS
        invariant caches.Valid() && caches.Excluded() <= exclude && TrueKnown(known)
        invariant MergeLeads(utxos, fee, self, nodes, live, round, known, exclude)
      {
        var o, next, learnt;
        o, next, learnt := MergeRound(utxos, fee, self, exclude, nodes(round), known, now);
        MergeRoundLeads(utxos, fee, self, nodes, live, round, known, exclude, o, learnt, next);
        if o.Merge? {
          r, remaining := o.r, o.remaining;
          FollowsMerges(utxos, fee, self, nodes, live, r, remaining);
          return;
        }
        exclude, known := next, learnt;
      }
      r, remaining := Err(Unavailable), 0;
      NoMergeRoundLeft(utxos, fee, self, nodes, live, known, exclude, remaining);
      FollowsMerges(utxos, fee, self, nodes, live, r, remaining);
    }

    // One round of a merge: an answer, or more coins to skip.
    method MergeRound(utxos: seq<Utxo>, fee: int, self: Address, exclude: set<Outpoint>, node: Node, known: Known, now: int)
      returns (o: MergeOutcome, exclude': set<Outpoint>, known': Known)
      requires caches.Valid() && caches.Excluded() <= exclude && TrueKnown(known) && 0 < fee <= MAX_FEE
      modifies caches
      ensures caches.Valid() && caches.Excluded() <= exclude' && TrueKnown(known')
      ensures o.Merge? && o.r.Ok? ==> |o.r.value.inputs| >= 2 && |o.r.value.outputs| == 1 && SafeSpend(o.r.value, [], fee, self) && o.remaining >= 0
      ensures MergeAttempted(utxos, fee, self, exclude, node, known, o, known')
      ensures o.MoreSkipped? ==> exclude' == exclude + Keys(o.coins) + Keys(o.ghosts)
    {
      hide SkipCaches.Valid, SkipCaches.Excluded, SkipCaches.NoneExpires, SafeSpend, TrueKnown, VerdictsFor, SortAsc, Eligible, MergeAttempted, Keys, Skippable, SkipsAs, Concludes;
      var coins := SpendableCoins(utxos, exclude);
      var sorted := SortAsc(coins);
      var pool := sorted[..Min(MAX_TX_INPUTS, |sorted|)];
      PoolFits(utxos, exclude, pool);
      o, exclude', known' := Merge(Err(NothingToConsolidate), 0), exclude, known;
      if |pool| < 2 {
        TooFewMerge(utxos, fee, self, exclude, node, known);
        return;
      }
      RoundVerdicts(pool, node, known);
      var verdicts := VerdictsFor(pool, node, known);
      var ver := VerifyInputValues(pool, verdicts);
      SettledBy(pool, verdicts, ver);
      match ver {
        case TamperRefused => o := Merge(Err(Tampered), 0);
        case TransientRefused => o := Merge(Err(Unavailable), 0);
        case Verified(total) =>
          o := Merge(Merged(pool, total, fee, self), |coins| - |pool|);
          if o.r.Ok? {
            TotalIsReal(pool, node, known);
            MergeIsSafe(pool, total, fee, self);
          }
        case SkipCoins(class_, skipped, ghosts) =>
          o := MoreSkipped(class_, skipped, ghosts);
          LearnIsTrue(known, pool, node);
          known' := Learn(known, pool, node);
          exclude' := Exclude(class_, skipped, exclude', now);
          exclude' := Exclude(Ghosts, ghosts, exclude', now);
      }
      ReadingIs(pool, verdicts, fee, ver);
      MergeReads(utxos, fee, self, exclude, node, known, pool, ver, o, known');
    }

    // Both passes see the same coins, answered alike, with nothing expiring between them and room in the caches.
    ghost predicate Steady(report: Option<seq<Utxo>>, report2: Option<seq<Utxo>>, nodes: nat -> Node, now: int, now2: int)
      reads caches
    {
      && SameAnswers(report, report2, nodes) && now <= now2 < now + GHOST_TTL_MS
      && caches.NoneExpires(now2) && |caches.Excluded() + ReportedKeys(report.value)| <= SKIP_CACHE_MAX
    }

    // The largest amount one send accepts at this fee: the figure a first pass finds, kept only when a second pass, the
    // send's own selection, accepts it.
    method MaxSendable(fee: int, report: Option<seq<Utxo>>, now: int, nodes: nat -> Node, report2: Option<seq<Utxo>>, now2: int, nodes2: nat -> Node)
      returns (m: MaxSend)
      requires caches.Valid()
      modifies caches
      ensures caches.Valid()
      ensures old(Steady(report, report2, nodes, now, now2)) && m.MaxOk? ==>
        MaxMeans(report.value, caches.Excluded(), nodes(0), m.amount, fee) && (m.amount > 0 ==> caches.NoneExpires(now2))
      ensures old(Steady(report, report2, nodes, now, now2) && AllProvable(report.value, caches.Excluded(), nodes(0))) && 0 < fee <= 10_000_000_000 ==>
        caches.Excluded() == old(caches.Excluded()) && MaxOfAll(report.value, caches.Excluded(), fee, m)
      ensures old(Steady(report, report2, nodes, now, now2)) && 0 < fee <= 10_000_000_000 ==>
        MaxFollows(report.value, nodes, old(caches.Live(now)), old(caches.Standing(now, ReportIn(report))), fee, m)
      ensures !(0 < fee <= MAX_SAFE) ==> m == MaxRefused(BadFee)
      ensures 10_000_000_000 < fee <= MAX_SAFE ==> m == MaxRefused(FeeCap)
    {
      if !(IsSafe(fee) && fee > 0) { return MaxRefused(BadFee); }
      if fee > MAX_FEE { return MaxRefused(FeeCap); }
      m := Passes(fee, report, now, nodes, report2, now2, nodes2);
    }

    method Passes(fee: int, report: Option<seq<Utxo>>, now: int, nodes: nat -> Node, report2: Option<seq<Utxo>>, now2: int, nodes2: nat -> Node)
      returns (m: MaxSend)
      requires caches.Valid() && fee > 0
      modifies caches
      ensures caches.Valid()
      ensures old(Steady(report, report2, nodes, now, now2)) && m.MaxOk? ==>
        MaxMeans(report.value, caches.Excluded(), nodes(0), m.amount, fee) && (m.amount > 0 ==> caches.NoneExpires(now2))
      ensures old(Steady(report, report2, nodes, now, now2) && AllProvable(report.value, caches.Excluded(), nodes(0))) ==>
        caches.Excluded() == old(caches.Excluded()) && MaxOfAll(report.value, caches.Excluded(), fee, m)
      ensures old(Steady(report, report2, nodes, now, now2)) ==>
        MaxFollows(report.value, nodes, old(caches.Live(now)), old(caches.Standing(now, ReportIn(report))), fee, m)
    {
      if Steady(report, report2, nodes, now, now2) { SteadyFacts(report, report2, nodes, now, now2); }
      hide SkipCaches.Valid, SkipCaches.Excluded, SkipCaches.NoneExpires, TrueKnown, FromNode, ReportedKeys, Accepts, Selected, Eligible, MaxMeans, MaxOfAll, AllProvable, GoodFunds, PaidBy, FirstRoundDecides, MaxTarget, TopSum, Spender.Steady, SameAnswers, ProportionalFeeCap, MaxFollows, Ends, LiveKeys, Meeting, ReportIn;
      assert TrueKnown(map[]) && FromNode(map[], nodes(0)) by { EmptyKnown(nodes(0)); }
      ghost var steady := Steady(report, report2, nodes, now, now2);
      ghost var live, standing := caches.Live(now), if report.Some? then caches.Standing(now, ReportedKeys(report.value)) else {};
      if report.Some? { ReportedIn(report); }
      ghost var sure := steady && AllProvable(report.value, caches.Excluded(), nodes(0));
      var found, target, known, exclude := SelectVerified(report, now, None, nodes, map[]);
      if sure { TopIsFound(report.value, old(caches.Excluded()), nodes(0), found, caches.Excluded()); }
      if found.Refused? {
        m := if found.code == Insufficient && report.Some? && Eligible(report.value, {}) == [] then MaxOk(0, 0) else MaxRefused(found.code);
      } else if target <= fee {
        m := MaxOk(0, 0);
      } else {
        m := Confirmed(report, now2, report2, nodes(0), nodes2, fee, target, known, exclude, found);
      }
      if steady {
        FindingIs(report.value, exclude, fee, found, target, m);
        FoundMeans(report.value, exclude, nodes(0), fee, found, m);
        FoundFollows(report.value, nodes, live, standing, fee, exclude, found, m);
      }
    }

    lemma SteadyFacts(report: Option<seq<Utxo>>, report2: Option<seq<Utxo>>, nodes: nat -> Node, now: int, now2: int)
      requires Steady(report, report2, nodes, now, now2)
      ensures report.Some? && report2 == report && (forall i :: nodes(i) == nodes(0)) && now <= now2 < now + GHOST_TTL_MS
      ensures caches.NoneExpires(now) && caches.NoneExpires(now2) && |caches.Excluded() + ReportedKeys(report.value)| <= SKIP_CACHE_MAX
    {
    }

    // The second pass, the send's own selection from the values the first one proved.
    method Confirmed(ghost report: Option<seq<Utxo>>, now2: int, report2: Option<seq<Utxo>>, ghost node: Node, nodes2: nat -> Node, fee: int, target: int, known: Known,
                     ghost exclude: set<Outpoint>, ghost found: Funds)
      returns (m: MaxSend)
      requires caches.Valid() && TrueKnown(known) && report.Some? && found.Funds? && target > fee > 0
      requires GoodFunds(found.inputs, found.total, target) && PaidBy(report.value, target, exclude, found.inputs, known) && target == MaxTarget(report.value, exclude)
      modifies caches
      ensures caches.Valid()
      ensures report2 == report && old(caches.NoneExpires(now2)) && old(caches.Excluded()) == exclude ==>
        && caches.Excluded() == exclude && caches.NoneExpires(now2)
        && m == (if fee > ProportionalFeeCap(found.total) then MaxRefused(FeeCap) else MaxOk(target - fee, |found.inputs|))
        && (m.MaxOk? && FromNode(known, node) ==> MaxMeans(report.value, exclude, node, m.amount, fee))
      ensures m.MaxOk? ==> m.amount > 0
    {
      hide SkipCaches.Valid, SkipCaches.Excluded, SkipCaches.NoneExpires, TrueKnown, FromNode, ReportedKeys, Selected, Eligible, MaxMeans, GoodFunds, PaidBy, FirstRoundDecides, MaxTarget, Ends, LiveKeys, Meeting, ExactMax, ProportionalFeeCap;
      ghost var lasting := caches.NoneExpires(now2);
      ghost var excluded := caches.Excluded();
      var sv, _, _, _ := SelectVerified(report2, now2, Some(target), nodes2, known);
      if report2 == report && lasting && excluded == exclude {
        SecondPass(report.value, target, exclude, nodes2(0), known, found, sv, caches.Excluded());
      }
      if sv.Refused? { return MaxRefused(sv.code); }
      if fee > ProportionalFeeCap(sv.total) { return MaxRefused(FeeCap); }
      m := MaxOk(target - fee, |sv.inputs|);
      if report2 == report && lasting && excluded == exclude && FromNode(known, node) {
        MaxIsExact(report.value, exclude, node, known, found.inputs, found.total, target, fee);
        ExactMeans(report.value, exclude, node, target - fee, fee);
      }
    }
  }

  // How the maximum ends when both passes see the same: as its first pass does.
  ghost predicate MaxFollows(utxos: seq<Utxo>, nodes: nat -> Node, live: set<Outpoint>, standing: set<Skipped>, fee: int, m: MaxSend) {
    exists end, final, f :: Ends(utxos, None, nodes, map[], live, standing, end, final, f) && FindsMax(utxos, final, f, fee, m)
  }

  ghost predicate FindsMax(utxos: seq<Utxo>, final: set<Outpoint>, f: Funds, fee: int, m: MaxSend) {
    match f
    case Refused(code) => m == if code == Insufficient && Eligible(utxos, {}) == [] then MaxOk(0, 0) else MaxRefused(code)
    case Funds(inputs, total) =>
      var most := MaxTarget(utxos, final);
      m == if most <= fee then MaxOk(0, 0)
           else if fee > 100_000_000 && fee > total / 10 then MaxRefused(FeeCap)
           else MaxOk(most - fee, |inputs|)
  }

  lemma FoundFollows(utxos: seq<Utxo>, nodes: nat -> Node, live: set<Outpoint>, standing: set<Skipped>, fee: int, final: set<Outpoint>, f: Funds, m: MaxSend)
    requires (exists end :: Ends(utxos, None, nodes, map[], live, standing, end, final, f)) && FindsMax(utxos, final, f, fee, m)
    ensures MaxFollows(utxos, nodes, live, standing, fee, m)
  {
    hide Ends, FindsMax;
  }

  lemma ReportedIn(report: Option<seq<Utxo>>)
    requires report.Some?
    ensures ReportIn(report) == ReportedKeys(report.value)
  {
  }

  lemma FindingIs(utxos: seq<Utxo>, final: set<Outpoint>, fee: int, f: Funds, target: int, m: MaxSend)
    requires f.Funds? ==> target == MaxTarget(utxos, final)
    requires if f.Refused? then m == (if f.code == Insufficient && Eligible(utxos, {}) == [] then MaxOk(0, 0) else MaxRefused(f.code))
      else if target <= fee then m == MaxOk(0, 0)
      else m == if fee > ProportionalFeeCap(f.total) then MaxRefused(FeeCap) else MaxOk(target - fee, |f.inputs|)
    ensures FindsMax(utxos, final, f, fee, m)
  {
    hide Eligible, MaxTarget;
  }

  lemma FoundMeans(utxos: seq<Utxo>, exclude: set<Outpoint>, node: Node, fee: int, f: Funds, m: MaxSend)
    requires FindsMax(utxos, exclude, f, fee, m) && fee > 0 && (m.MaxOk? && m.amount > 0 ==> MaxMeans(utxos, exclude, node, m.amount, fee))
    ensures m.MaxOk? ==> MaxMeans(utxos, exclude, node, m.amount, fee)
    ensures f.Funds? && f.total == TopSum(utxos, exclude) == MaxTarget(utxos, exclude) ==> MaxOfAll(utxos, exclude, fee, m)
  {
    hide Eligible, MaxTarget, TopSum, MaxMeans;
    if f.Funds? && MaxTarget(utxos, exclude) <= fee { TooLittle(utxos, exclude, node, fee); }
    if f.Refused? && m.MaxOk? { NoneToSend(utxos, exclude, node, fee); }
  }

  lemma ExactMeans(utxos: seq<Utxo>, exclude: set<Outpoint>, node: Node, amount: int, fee: int)
    requires ExactMax(utxos, exclude, node, amount, fee) && amount > 0
    ensures MaxMeans(utxos, exclude, node, amount, fee)
  {
    hide ExactMax;
  }

  // The second pass accepts what the first one paid.
  lemma SecondPass(utxos: seq<Utxo>, target: int, exclude: set<Outpoint>, node: Node, known: Known, found: Funds, sv: Funds, excluded: set<Outpoint>)
    requires found.Funds? && TrueKnown(known) && GoodFunds(found.inputs, found.total, target) && PaidBy(utxos, target, exclude, found.inputs, known)
    requires FirstRoundDecides(utxos, target, exclude, node, known, sv, excluded)
    ensures sv == found && excluded == exclude
  {
    hide GoodFunds, PaidBy, FirstRoundDecides, TrueKnown;
    MaxIsAccepted(utxos, target, exclude, node, known, found.inputs, found.total);
    FirstRoundIs(utxos, target, exclude, node, known, found.inputs, found.total, sv, excluded);
  }

  datatype MaxSend = MaxOk(amount: int, inputs: nat) | MaxRefused(code: Code)

  // `amount` at `fee` goes through, and nothing larger can be selected.
  ghost predicate ExactMax(utxos: seq<Utxo>, exclude: set<Outpoint>, node: Node, amount: int, fee: int) {
    && (exists inputs, total :: GoesThrough(utxos, amount, fee, exclude, node, inputs, total))
    && forall need :: need > amount + fee ==> Selected(utxos, need, exclude).None?
  }

  // What an answered maximum means: a positive one is exact, and none is answered only when no amount goes through.
  ghost predicate MaxMeans(utxos: seq<Utxo>, exclude: set<Outpoint>, node: Node, amount: int, fee: int) {
    && amount >= 0
    && (amount > 0 ==> ExactMax(utxos, exclude, node, amount, fee))
    && (amount == 0 ==> NothingGoes(utxos, exclude, node, fee))
  }

  ghost predicate NothingGoes(utxos: seq<Utxo>, exclude: set<Outpoint>, node: Node, fee: int) {
    forall a, inputs, total :: a > 0 ==> !GoesThrough(utxos, a, fee, exclude, node, inputs, total)
  }

  // The node proves every eligible coin at the value it reports, and the 512 largest sum within the safe range.
  ghost predicate AllProvable(utxos: seq<Utxo>, exclude: set<Outpoint>, node: Node) {
    && Eligible(utxos, exclude) != [] && IsSafe(TopSum(utxos, exclude))
    && forall c :: c in Eligible(utxos, exclude) ==> VerdictOn(c.at, node(c.at)) == Value(c.value)
  }

  // What the 512 largest eligible coins are worth.
  ghost function TopSum(utxos: seq<Utxo>, exclude: set<Outpoint>): int {
    var s := SortDesc(Eligible(utxos, exclude));
    if |s| <= 512 then Sum(s) else Sum(s[..512])
  }

  // The maximum when every coin is provable: all of the largest coins less the fee, nothing when they are not worth more
  // than the fee, and a refusal when the fee is more than a tenth of them and than one CSD.
  ghost predicate MaxOfAll(utxos: seq<Utxo>, exclude: set<Outpoint>, fee: int, m: MaxSend) {
    var top := TopSum(utxos, exclude);
    if top <= fee then m == MaxOk(0, 0)
    else if fee > 100_000_000 && fee > top / 10 then m == MaxRefused(FeeCap)
    else m.MaxOk? && m.amount == top - fee
  }

  lemma TopIsTarget(utxos: seq<Utxo>, exclude: set<Outpoint>)
    requires Eligible(utxos, exclude) != []
    ensures 0 < TopSum(utxos, exclude) == MaxTarget(utxos, exclude)
  {
    var pool := Eligible(utxos, exclude);
    var s := SortDesc(pool);
    EligibleDistinct(utxos, exclude);
    SortDescSorts(pool);
    forall c | c in s ensures 0 < c.value { assert c in multiset(s); }
    assert |s| == |multiset(s)| == |multiset(pool)| == |pool|;
    var n := Min(MAX_TX_INPUTS, |s|);
    SumGrows(s, 1, n);
    assert s[..1] == [s[0]] && s[0] in s && [s[0]][..0] == [];
    assert Sum(s[..1]) == s[0].value;
    assert |s| <= 512 ==> s[..n] == s;
  }

  // What a selection is worth as reported is at most that.
  lemma SelectedWithinTop(utxos: seq<Utxo>, exclude: set<Outpoint>, need: int)
    requires Selected(utxos, need, exclude).Some? && Eligible(utxos, exclude) != []
    ensures Sum(Selected(utxos, need, exclude).value.inputs) <= TopSum(utxos, exclude)
  {
    var inputs := Selected(utxos, need, exclude).value.inputs;
    var total := Sum(inputs);
    SelectionIsLeast(utxos, need, exclude);
    TopIsTarget(utxos, exclude);
    if total > TopSum(utxos, exclude) {
      SelectsItsWorth(utxos, exclude, need);
      NothingPastMax(utxos, exclude, total);
    }
  }

  // A need of exactly what a selection is worth selects something too.
  lemma SelectsItsWorth(utxos: seq<Utxo>, exclude: set<Outpoint>, need: int)
    requires Selected(utxos, need, exclude).Some?
    ensures Selected(utxos, Sum(Selected(utxos, need, exclude).value.inputs), exclude).Some?
  {
    var pool := Eligible(utxos, exclude);
    EligibleDistinct(utxos, exclude);
    NotCoinbaseIs(pool);
    var plain := NotCoinbase(pool);
    hide SortDesc, NotCoinbase, Eligible;
    if Taken(plain, need).Some? { TakesItsWorth(plain, need); } else { TakesItsWorth(pool, need); }
  }

  // A prefix that covers bounds the fewest that do.
  lemma EnoughWithin(s: seq<Coin>, need: int, n: nat)
    requires 1 <= n <= |s| && Sum(s[..n]) >= need && forall c :: c in s ==> 0 < c.value
    ensures 1 <= Enough(s, need) <= n && need <= Sum(s[..Enough(s, need)]) <= Sum(s[..n])
  {
    EnoughIsLeast(s, need);
    hide Enough;
    SumGrows(s, Enough(s, need), n);
  }

  lemma Largest(pool: seq<Coin>)
    requires forall c :: c in pool ==> 0 < c.value
    ensures |SortDesc(pool)| == |pool| && forall c :: c in SortDesc(pool) ==> 0 < c.value
  {
    SortDescSorts(pool);
    var s := SortDesc(pool);
    hide SortDesc;
    assert |s| == |multiset(s)| == |multiset(pool)| == |pool|;
    forall c | c in s ensures 0 < c.value { assert c in multiset(s); }
  }

  lemma TakesItsWorth(pool: seq<Coin>, need: int)
    requires Taken(pool, need).Some? && forall c :: c in pool ==> 0 < c.value
    ensures Taken(pool, Sum(Taken(pool, need).value.inputs)).Some?
  {
    hide SortDesc, Enough;
    var s := SortDesc(pool);
    var n := Enough(s, need);
    Largest(pool);
    EnoughIsLeast(s, need);
    EnoughWithin(s, Sum(s[..n]), n);
  }

  lemma {:induction false} ProvableTotals(inputs: seq<Coin>, node: Node)
    requires forall c :: c in inputs ==> VerdictOn(c.at, node(c.at)) == Value(c.value)
    ensures forall v :: v in VerdictsFor(inputs, node, map[]) ==> v.Value?
    ensures Total(VerdictsFor(inputs, node, map[])) == Sum(inputs)
  {
    if inputs != [] {
      var init, last := inputs[..|inputs| - 1], inputs[|inputs| - 1];
      assert last in inputs;
      ProvableTotals(init, node);
      var vs := VerdictsFor(inputs, node, map[]);
      assert vs[..|vs| - 1] == VerdictsFor(init, node, map[]);
      assert vs[|vs| - 1] == Value(last.value);
      assert forall v :: v in vs ==> v in vs[..|vs| - 1] || v == vs[|vs| - 1];
    }
  }

  // The first pass then finds exactly the largest coins' worth.
  lemma TopIsFound(utxos: seq<Utxo>, exclude: set<Outpoint>, node: Node, f: Funds, excluded: set<Outpoint>)
    requires AllProvable(utxos, exclude, node)
    requires FirstRoundDecides(utxos, MaxTarget(utxos, exclude), exclude, node, map[], f, excluded)
    ensures f.Funds? && f.total == TopSum(utxos, exclude) == MaxTarget(utxos, exclude) && excluded == exclude
  {
    TopIsTarget(utxos, exclude);
    TopIsSelected(utxos, exclude);
    var top := TopSum(utxos, exclude);
    var inputs := Selected(utxos, top, exclude).value.inputs;
    SelectionIsLeast(utxos, top, exclude);
    SelectedWithinTop(utxos, exclude, top);
    ProvableTotals(inputs, node);
    hide Selected, TopSum, VerdictsFor, MaxTarget, Eligible, Fewest;
    assert Accepts(utxos, top, exclude, node, map[], inputs, top);
  }

  lemma TopIsSelected(utxos: seq<Utxo>, exclude: set<Outpoint>)
    requires Eligible(utxos, exclude) != [] && IsSafe(TopSum(utxos, exclude))
    ensures Selected(utxos, TopSum(utxos, exclude), exclude).Some?
  {
    EligibleDistinct(utxos, exclude);
    var pool := Eligible(utxos, exclude);
    hide SortDesc, Enough, Eligible, NotCoinbase;
    var s := SortDesc(pool);
    Largest(pool);
    var n := Min(512, |s|);
    assert |s| <= 512 ==> s[..n] == s;
    assert TopSum(utxos, exclude) == Sum(s[..n]);
    EnoughWithin(s, Sum(s[..n]), n);
    assert Taken(pool, TopSum(utxos, exclude)).Some?;
  }

  lemma NoneToSend(utxos: seq<Utxo>, exclude: set<Outpoint>, node: Node, fee: int)
    requires Eligible(utxos, {}) == [] && fee > 0
    ensures MaxMeans(utxos, exclude, node, 0, fee)
  {
    NoneEligible(utxos, exclude);
    assert SortDesc([]) == [] && Sum([]) == 0;
    TooLittle(utxos, exclude, node, fee);
  }

  lemma {:induction false} NoneEligible(utxos: seq<Utxo>, exclude: set<Outpoint>)
    requires Eligible(utxos, {}) == []
    ensures Eligible(utxos, exclude) == []
  {
    if utxos != [] { NoneEligible(utxos[..|utxos| - 1], exclude); }
  }

  lemma TooLittle(utxos: seq<Utxo>, exclude: set<Outpoint>, node: Node, fee: int)
    requires MaxTarget(utxos, exclude) <= fee
    ensures MaxMeans(utxos, exclude, node, 0, fee)
  {
    hide Selected, MaxTarget;
    forall a, inputs, total | a > 0 ensures !GoesThrough(utxos, a, fee, exclude, node, inputs, total) {
      NothingPastMax(utxos, exclude, a + fee);
    }
  }

  // With every coin provable, some positive amount goes through exactly when the largest coins are worth more than the fee
  // and the fee is within its cap for them.
  lemma SomethingGoesIff(utxos: seq<Utxo>, exclude: set<Outpoint>, node: Node, fee: int)
    requires AllProvable(utxos, exclude, node) && fee > 0
    ensures var top := TopSum(utxos, exclude);
      !NothingGoes(utxos, exclude, node, fee) <==> top > fee && (fee <= 100_000_000 || fee <= top / 10)
  {
    hide NothingGoes, TopSum, Eligible, VerdictOn;
    if !NothingGoes(utxos, exclude, node, fee) { GoesWithinTop(utxos, exclude, node, fee); }
    var top := TopSum(utxos, exclude);
    if top > fee && (fee <= 100_000_000 || fee <= top / 10) { TopGoes(utxos, exclude, node, fee); }
  }

  lemma GoesWithinTop(utxos: seq<Utxo>, exclude: set<Outpoint>, node: Node, fee: int)
    requires AllProvable(utxos, exclude, node) && fee > 0 && !NothingGoes(utxos, exclude, node, fee)
    ensures var top := TopSum(utxos, exclude); top > fee && (fee <= 100_000_000 || fee <= top / 10)
  {
    hide Eligible, TopSum, Selected, Fewest, VerdictOn;
    var a, inputs, total :| a > 0 && GoesThrough(utxos, a, fee, exclude, node, inputs, total);
    SelectionIsLeast(utxos, a + fee, exclude);
    SelectedWithinTop(utxos, exclude, a + fee);
    ProvableTotals(inputs, node);
  }

  lemma TopGoes(utxos: seq<Utxo>, exclude: set<Outpoint>, node: Node, fee: int)
    requires AllProvable(utxos, exclude, node) && TopSum(utxos, exclude) > fee && (fee <= 100_000_000 || fee <= TopSum(utxos, exclude) / 10)
    ensures !NothingGoes(utxos, exclude, node, fee)
  {
    hide Eligible, TopSum, Selected, Fewest, VerdictOn, VerdictsFor;
    var top := TopSum(utxos, exclude);
    TopIsSelected(utxos, exclude);
    var inputs := Selected(utxos, top, exclude).value.inputs;
    SelectionIsLeast(utxos, top, exclude);
    SelectedWithinTop(utxos, exclude, top);
    ProvableTotals(inputs, node);
    assert GoesThrough(utxos, top - fee, fee, exclude, node, inputs, top);
  }

  ghost predicate GoesThrough(utxos: seq<Utxo>, amount: int, fee: int, exclude: set<Outpoint>, node: Node, inputs: seq<Coin>, total: int) {
    Accepts(utxos, amount + fee, exclude, node, map[], inputs, total) && fee <= Max(100_000_000, total / 10)
  }

  // Both passes see the same coins, and the node answers alike every round.
  ghost predicate SameAnswers(report: Option<seq<Utxo>>, report2: Option<seq<Utxo>>, nodes: nat -> Node) {
    report.Some? && report2 == report && forall i :: nodes(i) == nodes(0)
  }

  lemma EmptyKnown(node: Node)
    ensures TrueKnown(map[]) && FromNode(map[], node)
  {
  }

  // What was paid once is accepted again from the values it proved, whoever is asked.
  lemma MaxIsAccepted(utxos: seq<Utxo>, need: int, exclude: set<Outpoint>, node: Node, known: Known, inputs: seq<Coin>, total: int)
    requires TrueKnown(known) && GoodFunds(inputs, total, need) && PaidBy(utxos, need, exclude, inputs, known)
    ensures Accepts(utxos, need, exclude, node, known, inputs, total)
  {
    forall v | v in VerdictsFor(inputs, node, known) ensures v.Value? {
      var i :| 0 <= i < |inputs| && VerdictsFor(inputs, node, known)[i] == v;
      assert inputs[i] in inputs;
    }
    hide Selected, TrueKnown, VerdictsFor;
    TotalIsReal(inputs, node, known);
  }

  lemma FirstRoundIs(utxos: seq<Utxo>, need: int, exclude: set<Outpoint>, node: Node, known: Known, inputs: seq<Coin>, total: int, f: Funds, excluded: set<Outpoint>)
    requires FirstRoundDecides(utxos, need, exclude, node, known, f, excluded) && Accepts(utxos, need, exclude, node, known, inputs, total)
    ensures f == Funds(inputs, total) && excluded == exclude
  {
    hide Accepts, Selected;
  }

  // Values a node proved are values it proves again to a caller that knows nothing.
  lemma SameNodeSame(inputs: seq<Coin>, node: Node, known: Known)
    requires FromNode(known, node) && forall c :: c in inputs ==> c.at in known
    ensures VerdictsFor(inputs, node, map[]) == VerdictsFor(inputs, node, known)
  {
    forall i | 0 <= i < |inputs| ensures Asked(inputs[i], node, map[]) == Asked(inputs[i], node, known) {
      assert inputs[i] in inputs;
    }
  }

  // Past the total of the 512 largest eligible coins nothing is selected.
  lemma NothingPastMax(utxos: seq<Utxo>, exclude: set<Outpoint>, need: int)
    requires need > MaxTarget(utxos, exclude)
    ensures Selected(utxos, need, exclude).None?
  {
    var pool := Eligible(utxos, exclude);
    var s := SortDesc(pool);
    EligibleDistinct(utxos, exclude);
    SortDescSorts(pool);
    forall c | c in s ensures 0 < c.value { assert c in multiset(s); }
    EnoughIsLeast(s, need);
    var top := Min(MAX_TX_INPUTS, |s|);
    forall picks ensures !Covers(s, picks, need) {
      if Covers(s, picks, need) {
        LargestAreBest(s, picks);
        SumGrows(s, |Picked(s, picks)|, top);
      }
    }
    if Enough(s, need) <= top { SumGrows(s, Enough(s, need), top); }
    if Taken(NotCoinbase(pool), need).Some? { PlainSelectionCovers(utxos, need, exclude); }
  }

  lemma MaxIsExact(utxos: seq<Utxo>, exclude: set<Outpoint>, node: Node, known: Known, inputs: seq<Coin>, total: int, target: int, fee: int)
    requires TrueKnown(known) && FromNode(known, node)
    requires GoodFunds(inputs, total, target) && PaidBy(utxos, target, exclude, inputs, known)
    requires target == MaxTarget(utxos, exclude) && fee <= ProportionalFeeCap(total)
    ensures ExactMax(utxos, exclude, node, target - fee, fee)
  {
    forall need | need > target ensures Selected(utxos, need, exclude).None? { NothingPastMax(utxos, exclude, need); }
    MaxIsAccepted(utxos, target, exclude, node, known, inputs, total);
    SameNodeSame(inputs, node, known);
    hide Selected, TrueKnown, FromNode, VerdictsFor, MaxTarget, GoodFunds;
    assert GoesThrough(utxos, target - fee, fee, exclude, node, inputs, total);
  }

  // Max then send: with the caches as Max left them and the node answering as it did, a send of exactly that amount at
  // that fee goes through, and a send of any more is refused.
  lemma MaxSends(utxos: seq<Utxo>, exclude: set<Outpoint>, node: Node, amount: int, fee: int, sent: int, to: Address, self: Address, far: int, r: Result<Spend, Code>)
    requires ExactMax(utxos, exclude, node, amount, fee) && 0 < fee <= MAX_FEE && amount > 0 && to != ZERO_ADDRESS && far > MAX_SAFE
    requires SendDecided(utxos, [Payment(sent, to)], fee, self, far, exclude, node, r)
    ensures sent == amount ==> r.Ok?
    ensures sent > amount ==> r.Err?
  {
    OnePayment(sent, to);
    var inputs, total :| GoesThrough(utxos, amount, fee, exclude, node, inputs, total);
    assert amount + fee <= MAX_SAFE;
    assert FeeAndPayeesPass([Payment(sent, to)], fee);
    hide Selected, PaySum, Accepts, FeeAndPayeesPass, SendDecided, ExactMax;
    if sent == amount { AcceptedSends(utxos, [Payment(sent, to)], fee, self, far, exclude, node, r, inputs, total); }
    if sent > amount { UnselectedFails(utxos, [Payment(sent, to)], fee, self, far, exclude, node, r, amount); }
  }

  lemma AcceptedSends(utxos: seq<Utxo>, payments: seq<Payment>, fee: int, self: Address, far: int, exclude: set<Outpoint>, node: Node, r: Result<Spend, Code>, inputs: seq<Coin>, total: int)
    requires SendDecided(utxos, payments, fee, self, far, exclude, node, r) && payments != [] && FeeAndPayeesPass(payments, fee)
    requires Accepts(utxos, Rounded(PaySum(payments) + fee, far), exclude, node, map[], inputs, total) && fee <= ProportionalFeeCap(total)
    ensures r.Ok?
  {
    hide Accepts, Selected, PaySum;
  }

  lemma UnselectedFails(utxos: seq<Utxo>, payments: seq<Payment>, fee: int, self: Address, far: int, exclude: set<Outpoint>, node: Node, r: Result<Spend, Code>, amount: int)
    requires SendDecided(utxos, payments, fee, self, far, exclude, node, r) && ExactMax(utxos, exclude, node, amount, fee)
    requires Rounded(PaySum(payments) + fee, far) > amount + fee
    ensures r.Err?
  {
    hide Accepts, Selected, PaySum;
  }

  // One recipient and amount as a caller gives them: None is not an address, or not a whole number.
  datatype Out = Out(to: Option<Address>, value: Option<int>)

  predicate ValidOut(o: Out) { o.to.Some? && o.value.Some? && o.value.value > 0 && IsSafe(o.value.value) }

  function Payments(outs: seq<Out>): (ps: seq<Payment>)
    ensures |ps| == |outs| && forall i :: 0 <= i < |outs| && ValidOut(outs[i]) ==> ps[i] == Payment(outs[i].value.value, outs[i].to.value)
  {
    if outs == [] then []
    else
      var o := outs[|outs| - 1];
      Payments(outs[..|outs| - 1]) + [Payment(if o.value.Some? then o.value.value else 0, if o.to.Some? then o.to.value else [])]
  }

  ghost predicate ValidOutputs(outs: seq<Out>, most: nat, minOne: bool) {
    && (minOne ==> outs != []) && |outs| <= most
    && AllValid(outs) && IsSafe(PaySum(Payments(outs)))
  }

  ghost predicate AllValid(outs: seq<Out>) { forall i :: 0 <= i < |outs| ==> ValidOut(outs[i]) }

  lemma PaymentsAdd(outs: seq<Out>, i: nat)
    requires i < |outs|
    ensures PaySum(Payments(outs[..i + 1])) == PaySum(Payments(outs[..i])) + if outs[i].value.Some? then outs[i].value.value else 0
  {
    assert outs[..i + 1][..i] == outs[..i];
    PaySumSnoc(Payments(outs[..i]), Payments(outs[..i + 1])[|Payments(outs[..i])|]);
  }

  lemma {:induction false} PaymentsGrow(outs: seq<Out>, i: nat)
    requires i <= |outs| && AllValid(outs)
    ensures 0 <= PaySum(Payments(outs[..i])) <= PaySum(Payments(outs))
    decreases |outs| - i
  {
    if i < |outs| {
      PaymentsGrow(outs, i + 1);
      PaymentsAdd(outs, i);
      assert ValidOut(outs[i]);
      PaymentsArePositive(outs[..i]);
    } else {
      assert outs[..i] == outs;
      PaymentsArePositive(outs);
    }
  }

  lemma {:induction false} PaymentsArePositive(outs: seq<Out>)
    requires AllValid(outs)
    ensures PaySum(Payments(outs)) >= 0
  {
    if outs != [] {
      PaymentsArePositive(outs[..|outs| - 1]);
      assert outs[..|outs|] == outs;
      PaymentsAdd(outs, |outs| - 1);
      assert ValidOut(outs[|outs| - 1]);
    }
  }

  method ValidateOutputs(outs: seq<Out>, most: nat, minOne: bool) returns (sum: Result<int, Code>)
    ensures sum.Ok? <==> ValidOutputs(outs, most, minOne)
    ensures sum.Ok? ==> sum.value == PaySum(Payments(outs)) >= 0
    ensures sum.Err? ==> sum.error == BadOutputs
  {
    if minOne && |outs| < 1 { return Err(BadOutputs); }
    if |outs| > most { return Err(BadOutputs); }
    var total := SumOutputs(outs);
    sum := if total.None? then Err(BadOutputs) else Ok(total.value);
  }

  method SumOutputs(outs: seq<Out>) returns (sum: Option<int>)
    ensures sum.Some? <==> AllValid(outs) && IsSafe(PaySum(Payments(outs)))
    ensures sum.Some? ==> sum.value == PaySum(Payments(outs)) >= 0
  {
    var total, i := 0, 0;
    assert outs[..0] == [] && PaySum(Payments([])) == 0;
    hide Payments, PaySum;
    while i < |outs|
      invariant 0 <= i <= |outs| && AllValid(outs[..i])
      invariant total == PaySum(Payments(outs[..i])) && 0 <= total <= MAX_SAFE
    {
      if !ValidOut(outs[i]) { return None; }
      PaymentsAdd(outs, i);
      total := total + outs[i].value.value;
      i := i + 1;
      TooMuch(outs, i);
      if !IsSafe(total) { return None; }
    }
    assert outs[..|outs|] == outs;
    sum := Some(total);
  }

  lemma TooMuch(outs: seq<Out>, i: nat)
    requires i <= |outs|
    ensures AllValid(outs) && PaySum(Payments(outs[..i])) > MAX_SAFE ==> PaySum(Payments(outs)) > MAX_SAFE
  {
    if AllValid(outs) { PaymentsGrow(outs, i); }
  }

  lemma OnePayment(amount: int, to: Address)
    ensures PaySum([Payment(amount, to)]) == amount
  {
    PaySumSnoc([], Payment(amount, to));
    assert [] + [Payment(amount, to)] == [Payment(amount, to)];
  }

  // Stable ascending sort by value.
  function InsertAsc(s: seq<Coin>, c: Coin): seq<Coin> {
    if s == [] then [c] else if s[|s| - 1].value <= c.value then s + [c] else InsertAsc(s[..|s| - 1], c) + [s[|s| - 1]]
  }

  function SortAsc(s: seq<Coin>): seq<Coin> { if s == [] then [] else InsertAsc(SortAsc(s[..|s| - 1]), s[|s| - 1]) }

  lemma {:induction false} InsertAscKeeps(s: seq<Coin>, c: Coin)
    ensures multiset(InsertAsc(s, c)) == multiset(s) + multiset{c} && |InsertAsc(s, c)| == |s| + 1
  {
    if s != [] {
      assert s == s[..|s| - 1] + [s[|s| - 1]];
      if s[|s| - 1].value > c.value { InsertAscKeeps(s[..|s| - 1], c); }
    }
  }

  lemma {:induction false} SortAscKeeps(s: seq<Coin>)
    ensures multiset(SortAsc(s)) == multiset(s) && |SortAsc(s)| == |s|
  {
    if s != [] {
      var init, c := s[..|s| - 1], s[|s| - 1];
      SortAscKeeps(init);
      InsertAscKeeps(SortAsc(init), c);
      assert SortAsc(s) == InsertAsc(SortAsc(init), c) && s == init + [c];
      hide SortAsc, InsertAsc;
    }
  }

  ghost predicate Ascending(s: seq<Coin>) { forall i, j :: 0 <= i < j < |s| ==> s[i].value <= s[j].value }

  lemma {:induction false} InsertAscSorts(s: seq<Coin>, c: Coin)
    requires Ascending(s)
    ensures Ascending(InsertAsc(s, c)) && forall x :: x in InsertAsc(s, c) <==> x in s || x == c
  {
    if s != [] && s[|s| - 1].value > c.value {
      var init, last := s[..|s| - 1], s[|s| - 1];
      assert s == init + [last];
      InsertAscSorts(init, c);
      forall x | x in InsertAsc(init, c) ensures x.value <= last.value { if x in init { var i :| 0 <= i < |init| && init[i] == x; } }
    } else {
      forall x | x in s ensures x.value <= c.value { var i :| 0 <= i < |s| && s[i] == x; }
    }
  }

  lemma {:induction false} SortAscSorts(s: seq<Coin>)
    ensures Ascending(SortAsc(s))
  {
    if s != [] {
      SortAscSorts(s[..|s| - 1]);
      InsertAscSorts(SortAsc(s[..|s| - 1]), s[|s| - 1]);
    }
  }

  // The coins a merge takes: at most 512 of the eligible ones, none larger than one left out.
  ghost predicate Smallest(pool: seq<Coin>, coins: seq<Coin>) {
    && |pool| == Min(512, |coins|)
    && multiset(pool) <= multiset(coins)
    && forall c: Coin, d: Coin :: c in pool && d in multiset(coins) - multiset(pool) ==> c.value <= d.value
  }

  // The first round decides a merge whose coins are all provable: it takes the smallest, refuses when there are fewer than
  // two or they do not exceed the fee or the fee its cap, and else merges them.
  ghost predicate MergeDecided(utxos: seq<Utxo>, exclude: set<Outpoint>, node: Node, fee: int, self: Address, r: Result<Spend, Code>, remaining: int) {
    var coins := Eligible(utxos, exclude);
    if |coins| < 2 then r == Err(NothingToConsolidate)
    else exists pool :: Smallest(pool, coins) && MergesIfProven(pool, node, fee, self, r, remaining, |coins|)
  }

  ghost predicate MergesIfProven(pool: seq<Coin>, node: Node, fee: int, self: Address, r: Result<Spend, Code>, remaining: int, eligible: nat) {
    var vs := VerdictsFor(pool, node, map[]);
    (forall v :: v in vs ==> v.Value?) && Total(vs) <= MAX_SAFE ==> MergesTo(pool, Total(vs), fee, self, r) && (r.Ok? ==> remaining == eligible - |pool|)
  }

  ghost predicate MergesTo(pool: seq<Coin>, total: int, fee: int, self: Address, r: Result<Spend, Code>) {
    if total <= fee then r == Err(Insufficient)
    else if fee > 100_000_000 && fee > total / 10 then r == Err(FeeCap)
    else r == Ok(Spend(pool, [Payment(total - fee, self)]))
  }

  datatype MergeOutcome = Merge(r: Result<Spend, Code>, remaining: int) | MoreSkipped(class_: Skipped, coins: seq<Coin>, ghosts: seq<Coin>)

  ghost function FirstPool(utxos: seq<Utxo>, exclude: set<Outpoint>): seq<Coin> {
    var s := SortAsc(Eligible(utxos, exclude));
    s[..Min(512, |s|)]
  }

  // How the rounds of a merge from the i-th on end. There are three.
  ghost predicate MergeFollows(utxos: seq<Utxo>, fee: int, self: Address, nodes: nat -> Node, i: nat, known: Known, exclude: set<Outpoint>, r: Result<Spend, Code>, remaining: int)
    decreases 3 - i
  {
    if i >= 3 then r == Err(Unavailable)
    else
      var pool := FirstPool(utxos, exclude);
      var vs := VerdictsFor(pool, nodes(i), known);
      if |pool| >= 2 && Skippable(vs) then
        MergeFollows(utxos, fee, self, nodes, i + 1, Learn(known, pool, nodes(i)), exclude + Unproven(pool, vs), r, remaining)
      else MergeConcludes(utxos, fee, self, exclude, pool, vs, r, remaining)
  }

  ghost predicate MergeConcludes(utxos: seq<Utxo>, fee: int, self: Address, exclude: set<Outpoint>, pool: seq<Coin>, vs: seq<Verdict>, r: Result<Spend, Code>, remaining: int) {
    if |pool| < 2 then r == Err(NothingToConsolidate)
    else if Tamper in vs || Transient in vs then (r == Err(Tampered) && Tamper in vs) || (r == Err(Unavailable) && Transient in vs)
    else if Total(vs) > MAX_SAFE then r == Err(Tampered)
    else MergesTo(pool, Total(vs), fee, self, r) && (r.Ok? ==> remaining == |Eligible(utxos, exclude)| - |pool|)
  }

  ghost predicate MergeAttempted(utxos: seq<Utxo>, fee: int, self: Address, exclude: set<Outpoint>, node: Node, known: Known, o: MergeOutcome, known': Known) {
    var pool := FirstPool(utxos, exclude);
    var vs := VerdictsFor(pool, node, known);
    if |pool| >= 2 && Skippable(vs) then o.MoreSkipped? && Keys(o.coins) + Keys(o.ghosts) == Unproven(pool, vs) && known' == Learn(known, pool, node)
    else o.Merge? && MergeConcludes(utxos, fee, self, exclude, pool, vs, o.r, o.remaining)
  }

  ghost predicate MergeLeads(utxos: seq<Utxo>, fee: int, self: Address, nodes: nat -> Node, live: set<Outpoint>, i: nat, known: Known, exclude: set<Outpoint>) {
    forall r, m :: MergeFollows(utxos, fee, self, nodes, i, known, exclude, r, m) ==> MergeFollows(utxos, fee, self, nodes, 0, map[], live, r, m)
  }

  lemma MergeLeadsHere(utxos: seq<Utxo>, fee: int, self: Address, nodes: nat -> Node, live: set<Outpoint>)
    ensures MergeLeads(utxos, fee, self, nodes, live, 0, map[], live)
  {
    hide MergeFollows;
  }

  lemma NoMergeRoundLeft(utxos: seq<Utxo>, fee: int, self: Address, nodes: nat -> Node, live: set<Outpoint>, known: Known, exclude: set<Outpoint>, remaining: int)
    requires MergeLeads(utxos, fee, self, nodes, live, 3, known, exclude)
    ensures MergeFollows(utxos, fee, self, nodes, 0, map[], live, Err(Unavailable), remaining)
  {
    assert MergeFollows(utxos, fee, self, nodes, 3, known, exclude, Err(Unavailable), remaining);
    hide MergeFollows;
  }

  lemma MergeRoundLeads(utxos: seq<Utxo>, fee: int, self: Address, nodes: nat -> Node, live: set<Outpoint>, i: nat, known: Known, exclude: set<Outpoint>, o: MergeOutcome, learnt: Known, next: set<Outpoint>)
    requires MergeLeads(utxos, fee, self, nodes, live, i, known, exclude) && i < 3
    requires MergeAttempted(utxos, fee, self, exclude, nodes(i), known, o, learnt)
    requires o.MoreSkipped? ==> next == exclude + Keys(o.coins) + Keys(o.ghosts)
    ensures o.Merge? ==> MergeFollows(utxos, fee, self, nodes, 0, map[], live, o.r, o.remaining)
    ensures o.MoreSkipped? ==> MergeLeads(utxos, fee, self, nodes, live, i + 1, learnt, next)
  {
    hide FirstPool, VerdictsFor, Learn, Keys, Unproven, MergeConcludes, Skippable;
    var pool := FirstPool(utxos, exclude);
    var vs := VerdictsFor(pool, nodes(i), known);
    if o.Merge? { assert MergeFollows(utxos, fee, self, nodes, i, known, exclude, o.r, o.remaining); }
    else {
      assert next == exclude + Unproven(pool, vs);
      forall r, m ensures MergeFollows(utxos, fee, self, nodes, i + 1, learnt, next, r, m) == MergeFollows(utxos, fee, self, nodes, i, known, exclude, r, m) {
      }
    }
  }

  lemma MergeReads(utxos: seq<Utxo>, fee: int, self: Address, exclude: set<Outpoint>, node: Node, known: Known, pool: seq<Coin>, ver: Verification, o: MergeOutcome, known': Known)
    requires pool == FirstPool(utxos, exclude) && |pool| >= 2 && fee > 0
    requires var vs := VerdictsFor(pool, node, known);
      && (Skippable(vs) <==> ver.SkipCoins?)
      && (ver.SkipCoins? ==> SkipsAs(pool, vs, Reading(ver, pool, fee)))
      && (!ver.SkipCoins? ==> Concludes(pool, vs, fee, Reading(ver, pool, fee)))
      && (ver.Verified? ==> ver.total == Total(vs) && IsSafe(ver.total))
    requires ver.SkipCoins? <==> o.MoreSkipped?
    requires ver.TamperRefused? ==> o.r == Err(Tampered)
    requires ver.TransientRefused? ==> o.r == Err(Unavailable)
    requires ver.Verified? ==> o.r == Merged(pool, ver.total, fee, self) && o.remaining == |Eligible(utxos, exclude)| - |pool|
    requires ver.SkipCoins? ==> o == MoreSkipped(ver.class_, ver.coins, ver.ghosts) && known' == Learn(known, pool, node)
    ensures MergeAttempted(utxos, fee, self, exclude, node, known, o, known')
  {
    hide FirstPool, VerdictsFor, Learn, Keys, Unproven, Skippable, Total, Eligible;
  }

  // What the first round says of the whole merge.
  lemma FollowsMerges(utxos: seq<Utxo>, fee: int, self: Address, nodes: nat -> Node, live: set<Outpoint>, r: Result<Spend, Code>, remaining: int)
    requires MergeFollows(utxos, fee, self, nodes, 0, map[], live, r, remaining)
    ensures MergeDecided(utxos, live, nodes(0), fee, self, r, remaining)
  {
    hide Eligible, SortAsc, Smallest, VerdictsFor, Total, Learn, Unproven;
    FirstPoolIsSmallest(utxos, live);
    SortAscKeeps(Eligible(utxos, live));
    var pool := FirstPool(utxos, live);
    var coins := Eligible(utxos, live);
    var vs := VerdictsFor(pool, nodes(0), map[]);
    if |coins| >= 2 {
      assert |pool| >= 2;
      assert MergesIfProven(pool, nodes(0), fee, self, r, remaining, |coins|);
    }
  }

  // A merge of a verified pool.
  function Merged(pool: seq<Coin>, total: int, fee: int, self: Address): Result<Spend, Code> {
    if !(total - fee > 0) then Err(Insufficient)
    else if fee > ProportionalFeeCap(total) then Err(FeeCap)
    else Ok(Spend(pool, [Payment(total - fee, self)]))
  }

  lemma TooFewMerge(utxos: seq<Utxo>, fee: int, self: Address, exclude: set<Outpoint>, node: Node, known: Known)
    requires |FirstPool(utxos, exclude)| < 2
    ensures MergeAttempted(utxos, fee, self, exclude, node, known, Merge(Err(NothingToConsolidate), 0), known)
  {
    hide FirstPool;
  }

  lemma PrefixIsSmallest(coins: seq<Coin>, s: seq<Coin>, n: nat)
    requires Ascending(s) && multiset(s) == multiset(coins) && n == Min(512, |s|) && |s| == |coins|
    ensures Smallest(s[..n], coins)
  {
    var pool, rest := s[..n], s[n..];
    assert s == pool + rest;
    assert multiset(coins) - multiset(pool) == multiset(rest);
    forall c: Coin, d: Coin | c in pool && d in multiset(rest) ensures c.value <= d.value {
      assert d in rest;
      var i :| 0 <= i < |pool| && pool[i] == c;
      var j :| 0 <= j < |rest| && rest[j] == d;
      assert s[i] == c && s[n + j] == d;
    }
  }

  lemma FirstPoolIsSmallest(utxos: seq<Utxo>, exclude: set<Outpoint>)
    ensures Smallest(FirstPool(utxos, exclude), Eligible(utxos, exclude))
  {
    hide Eligible, SortAsc, Ascending, Smallest;
    var coins := Eligible(utxos, exclude);
    SortAscKeeps(coins);
    SortAscSorts(coins);
    PrefixIsSmallest(coins, SortAsc(coins), Min(512, |coins|));
  }

  lemma PoolFits(utxos: seq<Utxo>, exclude: set<Outpoint>, pool: seq<Coin>)
    requires var s := SortAsc(Eligible(utxos, exclude)); pool == s[..Min(MAX_TX_INPUTS, |s|)]
    ensures |pool| <= MAX_TX_INPUTS && DistinctCoins(pool) && |pool| <= |Eligible(utxos, exclude)|
  {
    EligibleDistinct(utxos, exclude);
    SortAscKeeps(Eligible(utxos, exclude));
    SortedKeepsDistinct(Eligible(utxos, exclude), SortAsc(Eligible(utxos, exclude)));
  }

  lemma MergeIsSafe(pool: seq<Coin>, total: int, fee: int, self: Address)
    requires 2 <= |pool| <= MAX_TX_INPUTS && DistinctCoins(pool) && Proven(pool) && total == RealSum(pool) && IsSafe(total)
    requires 0 < fee <= MAX_FEE && fee < total && fee <= ProportionalFeeCap(total)
    ensures SafeSpend(Spend(pool, [Payment(total - fee, self)]), [], fee, self)
  {
    PaySumSnoc([], Payment(total - fee, self));
    assert [] + [Payment(total - fee, self)] == [Payment(total - fee, self)];
  }

  method NoZeroAddress(payments: seq<Payment>) returns (ok: bool)
    ensures ok <==> forall p :: p in payments ==> p.to != ZERO_ADDRESS
  {
    for i := 0 to |payments|
      invariant forall j :: 0 <= j < i ==> payments[j].to != ZERO_ADDRESS
    {
      if payments[i].to == ZERO_ADDRESS { return false; }
    }
    ok := true;
  }

  // The transaction over selected funds, or why there is none.
  function Built(f: Funds, payments: seq<Payment>, fee: int, self: Address, need: int): Result<Spend, Code> {
    if f.Refused? then Err(f.code)
    else if fee > ProportionalFeeCap(f.total) then Err(FeeCap)
    else
      var change := f.total - need;
      var outs := payments + if change > 0 then [Payment(change, self)] else [];
      if outs == [] then Err(NoOutputs) else Ok(Spend(f.inputs, outs))
  }

  lemma BuiltIsSafe(f: Funds, payments: seq<Payment>, fee: int, self: Address, far: int)
    requires var need := Rounded(PaySum(payments) + fee, far);
      f.Funds? && GoodFunds(f.inputs, f.total, need) && Built(f, payments, fee, self, need).Ok?
    requires far > MAX_SAFE && PaySum(payments) >= 0 && FeeAndPayeesPass(payments, fee)
    ensures SafeSpend(Built(f, payments, fee, self, Rounded(PaySum(payments) + fee, far)).value, payments, fee, self)
  {
    hide RealSum, PaySum, Proven, DistinctCoins;
    var need := Rounded(PaySum(payments) + fee, far);
    PaySumSnoc(payments, Payment(f.total - need, self));
  }

  // How a spend ends, from what the caches still exclude: refused before a coin is read, or as its selection says.
  ghost predicate SpendFollows(report: Option<seq<Utxo>>, payments: seq<Payment>, fee: int, self: Address, far: int, nodes: nat -> Node, live: set<Outpoint>, standing: set<Skipped>, r: Result<Spend, Code>) {
    if fee <= 0 then r == Err(FeeTooLow)
    else if fee > 10_000_000_000 then r == Err(FeeCap)
    else if exists p :: p in payments && p.to == ZERO_ADDRESS then r == Err(ZeroAddress)
    else if report.None? then r == Err(Unavailable)
    else
      var sum := PaySum(payments) + fee;
      var need := if sum <= MAX_SAFE then sum else far;
      exists end, final, f :: Ends(report.value, Some(need), nodes, map[], live, standing, end, final, f) && BuildsOn(f, payments, fee, self, need, r)
  }

  // What is built over selected funds.
  ghost predicate BuildsOn(f: Funds, payments: seq<Payment>, fee: int, self: Address, need: int, r: Result<Spend, Code>) {
    match f
    case Refused(code) => r == Err(code)
    case Funds(inputs, total) =>
      if fee > 100_000_000 && fee > total / 10 then r == Err(FeeCap)
      else if total > need then r == Ok(Spend(inputs, payments + [Payment(total - need, self)]))
      else r == if payments == [] then Err(NoOutputs) else Ok(Spend(inputs, payments))
  }

  // The coins a report names.
  ghost function ReportIn(report: Option<seq<Utxo>>): set<Outpoint> { if report.Some? then ReportedKeys(report.value) else {} }

  lemma BuiltFollows(report: Option<seq<Utxo>>, payments: seq<Payment>, fee: int, self: Address, far: int, need: int, f: Funds, r: Result<Spend, Code>)
    requires FeeAndPayeesPass(payments, fee) && need == Rounded(PaySum(payments) + fee, far) && r == Built(f, payments, fee, self, need)
    requires report.None? ==> f == Refused(Unavailable)
    ensures report.None? ==> forall nodes, live, standing :: SpendFollows(report, payments, fee, self, far, nodes, live, standing, r)
    ensures report.Some? ==> forall nodes, live, standing, end, final ::
      Ends(report.value, Some(need), nodes, map[], live, standing, end, final, f) ==> SpendFollows(report, payments, fee, self, far, nodes, live, standing, r)
  {
    hide Ends, PaySum;
    assert BuildsOn(f, payments, fee, self, need, r) by { assert payments + [] == payments; }
  }

  lemma NotTried(payments: seq<Payment>, fee: int, self: Address, far: int, r: Result<Spend, Code>)
    requires r.Err? && !FeeAndPayeesPass(payments, fee)
    ensures forall utxos, exclude, node :: SendDecided(utxos, payments, fee, self, far, exclude, node, r)
  {
    hide Accepts, Selected;
  }

  lemma BuiltDecides(utxos: seq<Utxo>, payments: seq<Payment>, fee: int, self: Address, far: int, exclude: set<Outpoint>, node: Node, f: Funds, excluded: set<Outpoint>)
    requires FirstRoundDecides(utxos, Rounded(PaySum(payments) + fee, far), exclude, node, map[], f, excluded)
    ensures SendDecided(utxos, payments, fee, self, far, exclude, node, Built(f, payments, fee, self, Rounded(PaySum(payments) + fee, far)))
  {
    hide Accepts, Selected, PaySum;
  }

  // ---- What is signed ----

  const ZERO_ADDRESS: Address := [0, 0, 0, 0, 0, 0, 0, 0, 0, 0, 0, 0, 0, 0, 0, 0, 0, 0, 0, 0]

  datatype Payment = Payment(value: int, to: Address)
  datatype Spend = Spend(inputs: seq<Coin>, outputs: seq<Payment>)

  function PaySum(ps: seq<Payment>): int { if ps == [] then 0 else PaySum(ps[..|ps| - 1]) + ps[|ps| - 1].value }

  lemma PaySumSnoc(ps: seq<Payment>, p: Payment)
    ensures PaySum(ps + [p]) == PaySum(ps) + p.value && PaySum(ps + []) == PaySum(ps)
  {
    assert (ps + [p])[..|ps|] == ps && ps + [] == ps;
  }

  // A sum of safe integers as a number: exact in the safe range, something beyond it otherwise.
  function Rounded(sum: int, far: int): int { if sum <= MAX_SAFE then sum else far }

  // max(1 CSD, a tenth of the verified total).
  function ProportionalFeeCap(total: int): int { Max(CSD, total / 10) }

  // Conservation and safety of a value-moving transaction.
  ghost predicate SafeSpend(tx: Spend, payments: seq<Payment>, fee: int, self: Address) {
    && 1 <= |tx.inputs| <= MAX_TX_INPUTS && DistinctCoins(tx.inputs) && Proven(tx.inputs)
    && RealSum(tx.inputs) == PaySum(tx.outputs) + fee
    && 0 < fee <= 10_000_000_000 && fee <= Max(100_000_000, RealSum(tx.inputs) / 10)
    && IsSafe(RealSum(tx.inputs)) && IsSafe(PaySum(tx.outputs)) && IsSafe(PaySum(payments) + fee)
    && tx.outputs != [] && ChangeToSelf(tx.outputs, payments, self)
    && forall p :: p in payments ==> p.to != ZERO_ADDRESS
  }

  // The payments as given, then at most one more output, of positive value, to the signer.
  ghost predicate ChangeToSelf(outputs: seq<Payment>, payments: seq<Payment>, self: Address) {
    outputs == payments || (|outputs| == |payments| + 1 && outputs[..|payments|] == payments
                            && outputs[|payments|].to == self && outputs[|payments|].value > 0)
  }

  // The refusals made before any coin is read.
  predicate FeeAndPayeesPass(payments: seq<Payment>, fee: int) {
    0 < fee <= 10_000_000_000 && forall p :: p in payments ==> p.to != ZERO_ADDRESS
  }

  // With nothing expiring, what the caches exclude decides a send: it goes through when its selection is provable and
  // the fee fits, and not when nothing can be selected.
  ghost predicate SendDecided(utxos: seq<Utxo>, payments: seq<Payment>, fee: int, self: Address, far: int, exclude: set<Outpoint>, node: Node, r: Result<Spend, Code>) {
    var need := Rounded(PaySum(payments) + fee, far);
    && (Selected(utxos, need, exclude).None? ==> r.Err?)
    && forall inputs, total :: Accepts(utxos, need, exclude, node, map[], inputs, total)
                               && FeeAndPayeesPass(payments, fee) && fee <= Max(100_000_000, total / 10) && payments != []
                               ==> r.Ok? && r.value.inputs == inputs
  }

  // The sum of the coins, or zero when it leaves the safe range.
  function Spare(coins: seq<Coin>): int { if IsSafe(Sum(coins)) then Sum(coins) else 0 }

  method SafeSum(coins: seq<Coin>) returns (spendable: int)
    requires forall c :: c in coins ==> 0 < c.value <= MAX_SAFE
    ensures spendable == Spare(coins)
  {
    spendable := 0;
    for i := 0 to |coins|
      invariant spendable == Sum(coins[..i]) && 0 <= spendable <= MAX_SAFE
    {
      assert coins[..i + 1][..i] == coins[..i];
      spendable := spendable + coins[i].value;
      if !IsSafe(spendable) {
        SumGrows(coins, i + 1, |coins|);
        assert coins[..|coins|] == coins;
        return 0;
      }
    }
    assert coins[..|coins|] == coins;
  }

  // Coins of the report skipped so far, by reason.
  datatype Counts = Counts(ghosts: nat, horizons: nat, unreps: nat)

  // What the first round's exclusions alone say about the end of a fixed need's rounds.
  ghost predicate Decided(utxos: seq<Utxo>, need: int, exclude: set<Outpoint>, node: Node, known: Known, end: Outcome, excluded: set<Outpoint>) {
    && (forall inputs, total :: Accepts(utxos, need, exclude, node, known, inputs, total) ==> end == Paid(inputs, total) && excluded == exclude)
    && (Selected(utxos, need, exclude).None? ==> !end.Paid?)
  }

  lemma DecidedIsFirst(utxos: seq<Utxo>, need: int, exclude: set<Outpoint>, node: Node, known: Known, end: Outcome, excluded: set<Outpoint>, f: Funds)
    requires Decided(utxos, need, exclude, node, known, end, excluded)
    requires if end.Paid? then f == Funds(end.inputs, end.total) else f.Refused?
    ensures FirstRoundDecides(utxos, need, exclude, node, known, f, excluded)
  {
    hide Accepts, Selected;
  }

  // The first exclusions leave a selection that is not provable in full.
  ghost predicate Open(utxos: seq<Utxo>, need: int, exclude: set<Outpoint>, node: Node, known: Known) {
    Selected(utxos, need, exclude).Some? && forall inputs, total :: !Accepts(utxos, need, exclude, node, known, inputs, total)
  }

  lemma FirstDecides(utxos: seq<Utxo>, need: int, exclude: set<Outpoint>, node: Node, known: Known, o: Outcome, known': Known)
    requires Tried(utxos, need, exclude, node, known, o, known')
    ensures !o.Skip? ==> Decided(utxos, need, exclude, node, known, o, exclude)
    ensures o.Skip? ==> Open(utxos, need, exclude, node, known)
  {
    hide Accepts, Selected;
  }

  lemma OpenDecides(utxos: seq<Utxo>, need: int, exclude: set<Outpoint>, node: Node, known: Known, end: Outcome, excluded: set<Outpoint>)
    requires Open(utxos, need, exclude, node, known)
    ensures Decided(utxos, need, exclude, node, known, end, excluded)
  {
    hide Accepts, Selected;
  }

  lemma TriedPays(utxos: seq<Utxo>, need: int, exclude: set<Outpoint>, node: Node, known: Known, o: Outcome, known': Known)
    requires Tried(utxos, need, exclude, node, known, o, known') && o.Paid?
    ensures GoodFunds(o.inputs, o.total, need) && PaidBy(utxos, need, exclude, o.inputs, known')
  {
  }

  // With nothing expiring, the first round decides a fixed need: it pays what it can prove, and refuses what cannot be
  // selected.
  ghost predicate FirstRoundDecides(utxos: seq<Utxo>, need: int, exclude: set<Outpoint>, node: Node, known: Known, f: Funds, excluded: set<Outpoint>) {
    && (forall inputs, total :: Accepts(utxos, need, exclude, node, known, inputs, total) ==> f == Funds(inputs, total) && excluded == exclude)
    && (Selected(utxos, need, exclude).None? ==> f.Refused?)
  }

  datatype Outcome =
    | NoSelection | Paid(inputs: seq<Coin>, total: int) | Fault(code: Code)
    | Skip(class_: Skipped, coins: seq<Coin>, ghosts: seq<Coin>)

  // What one attempt's outcome means.
  ghost predicate Tried(utxos: seq<Utxo>, need: int, exclude: set<Outpoint>, node: Node, known: Known, o: Outcome, known': Known) {
    && (o.NoSelection? <==> Selected(utxos, need, exclude).None?)
    && (o.Paid? ==> GoodFunds(o.inputs, o.total, need) && PaidBy(utxos, need, exclude, o.inputs, known'))
    && (forall inputs, total :: Accepts(utxos, need, exclude, node, known, inputs, total) ==> o == Paid(inputs, total))
  }

  // Select, verify, and read the answer.
  method Attempt(utxos: seq<Utxo>, need: int, exclude: set<Outpoint>, node: Node, known: Known) returns (o: Outcome, known': Known)
    requires TrueKnown(known)
    ensures TrueKnown(known') && (FromNode(known, node) ==> FromNode(known', node))
    ensures Tried(utxos, need, exclude, node, known, o, known')
    ensures Attempted(utxos, need, exclude, node, known, o, known')
    ensures o.Skip? ==> Keys(o.coins) <= ReportedKeys(utxos) && Keys(o.ghosts) <= ReportedKeys(utxos)
  {
    var sel := SelectInputs(utxos, need, exclude);
    if sel.None? { return NoSelection, known; }
    var inputs := sel.value.inputs;
    LearnIsTrue(known, inputs, node);
    RoundVerdicts(inputs, node, known);
    hide Tried, TrueKnown, FromNode, Keys, ReportedKeys, Selected, Decisive, VerdictsFor, Skippable, SkipsAs, Concludes;
    var verdicts := VerdictsFor(inputs, node, known);
    var ver := VerifyInputValues(inputs, verdicts);
    SettledBy(inputs, verdicts, ver);
    o, known' := Reading(ver, inputs, need), if ver.Verified? || ver.SkipCoins? then Learn(known, inputs, node) else known;
    if o.Paid? { PaidIsTried(utxos, need, exclude, node, known, inputs, ver.total); }
    else { OtherIsTried(utxos, need, exclude, node, known, inputs, ver, known'); }
    ReadingIs(inputs, verdicts, need, ver);
    if o.Skip? { SkipIsReported(utxos, need, exclude, inputs, verdicts); }
  }

  // What the reading of a verification says about the verdicts.
  lemma ReadingIs(inputs: seq<Coin>, vs: seq<Verdict>, need: int, ver: Verification)
    requires |inputs| == |vs| && forall k :: 0 <= k < |vs| && vs[k].Value? ==> IsValue(vs[k].v)
    requires (forall v :: v in vs ==> !Decisive(v)) ==> ver == Folded(inputs, vs)
    requires (exists v :: v in vs && Decisive(v)) ==> (ver == TamperRefused && Tamper in vs) || (ver == TransientRefused && Transient in vs)
    ensures Skippable(vs) <==> ver.SkipCoins?
    ensures ver.SkipCoins? ==> SkipsAs(inputs, vs, Reading(ver, inputs, need))
    ensures !ver.SkipCoins? ==> Concludes(inputs, vs, need, Reading(ver, inputs, need))
  {
    WithIs(inputs, vs, NotFound);
    WithIs(inputs, vs, Horizon);
    WithIs(inputs, vs, Unrepresentable);
    TotalGrows(vs, 0);
    if forall v :: v in vs ==> !Decisive(v) {
      FoldedMeans(inputs, vs);
      if ver.SkipCoins? {
        WithKeys(inputs, vs, NotFound);
        WithKeys(inputs, vs, VerdictOf(ver.class_));
        if ver.class_ == Ghosts { WithKeys(inputs, vs, Unrepresentable); }
      }
    }
  }

  lemma WithKeys(inputs: seq<Coin>, vs: seq<Verdict>, v: Verdict)
    requires |inputs| == |vs|
    ensures Keys(With(inputs, vs, v)) == set k | 0 <= k < |inputs| && vs[k] == v :: inputs[k].at
  {
    WithIs(inputs, vs, v);
    var ks := set k | 0 <= k < |inputs| && vs[k] == v :: inputs[k].at;
    forall x | x in ks ensures x in Keys(With(inputs, vs, v)) {
      var k :| 0 <= k < |inputs| && vs[k] == v && inputs[k].at == x;
      assert inputs[k] in With(inputs, vs, v);
    }
  }

  function Reading(ver: Verification, inputs: seq<Coin>, need: int): Outcome {
    match ver
    case TamperRefused => Fault(Tampered)
    case TransientRefused => Fault(Unavailable)
    case Verified(total) => if total < need then Fault(Insufficient) else Paid(inputs, total)
    case SkipCoins(class_, coins, ghosts) => Skip(class_, coins, ghosts)
  }

  lemma PaidIsTried(utxos: seq<Utxo>, need: int, exclude: set<Outpoint>, node: Node, known: Known, inputs: seq<Coin>, total: int)
    requires TrueKnown(known) && Selected(utxos, need, exclude).Some? && Selected(utxos, need, exclude).value.inputs == inputs
    requires (forall v :: v in VerdictsFor(inputs, node, known) ==> v.Value?) && total == Total(VerdictsFor(inputs, node, known))
    requires need <= total && IsSafe(total)
    ensures Tried(utxos, need, exclude, node, known, Paid(inputs, total), Learn(known, inputs, node))
  {
    hide Selected, TrueKnown, FromNode, Fewest, Eligible, VerdictsFor, Asked, Learn, OnChain, RealSum, Sum, Total, Proven;
    SelectionIsLeast(utxos, need, exclude);
    TotalIsReal(inputs, node, known);
    LearnIsTrue(known, inputs, node);
    AllAsked(inputs, node, known);
  }

  lemma OtherIsTried(utxos: seq<Utxo>, need: int, exclude: set<Outpoint>, node: Node, known: Known, inputs: seq<Coin>, ver: Verification, known': Known)
    requires Selected(utxos, need, exclude).Some? && Selected(utxos, need, exclude).value.inputs == inputs
    requires var vs := VerdictsFor(inputs, node, known);
      (forall v :: v in vs ==> v.Value?) && IsSafe(Total(vs)) ==> ver == Verified(Total(vs))
    requires !Reading(ver, inputs, need).Paid?
    ensures Tried(utxos, need, exclude, node, known, Reading(ver, inputs, need), known')
  {
    forall ins, total { AcceptsIsPaid(utxos, need, exclude, node, known, inputs, ver, ins, total); }
    hide Selected, VerdictsFor, Accepts;
  }

  lemma AcceptsIsPaid(utxos: seq<Utxo>, need: int, exclude: set<Outpoint>, node: Node, known: Known, inputs: seq<Coin>, ver: Verification, ins: seq<Coin>, total: int)
    requires Selected(utxos, need, exclude).Some? && Selected(utxos, need, exclude).value.inputs == inputs
    requires var vs := VerdictsFor(inputs, node, known);
      (forall v :: v in vs ==> v.Value?) && IsSafe(Total(vs)) ==> ver == Verified(Total(vs))
    ensures Accepts(utxos, need, exclude, node, known, ins, total) ==> Reading(ver, inputs, need) == Paid(ins, total)
  {
  }

  lemma SkipIsReported(utxos: seq<Utxo>, need: int, exclude: set<Outpoint>, inputs: seq<Coin>, verdicts: seq<Verdict>)
    requires Selected(utxos, need, exclude).Some? && Selected(utxos, need, exclude).value.inputs == inputs
    requires |inputs| == |verdicts| && Folded(inputs, verdicts).SkipCoins?
    ensures var r := Folded(inputs, verdicts); Keys(r.coins) <= ReportedKeys(utxos) && Keys(r.ghosts) <= ReportedKeys(utxos)
  {
    SelectionIsLeast(utxos, need, exclude);
    EligibleIsReported(utxos, exclude);
    SkipsAreInputs(inputs, verdicts);
    hide Selected, Eligible, Fewest, Folded, ReportedKeys;
  }

  lemma AllAsked(inputs: seq<Coin>, node: Node, known: Known)
    requires forall v :: v in VerdictsFor(inputs, node, known) ==> v.Value?
    ensures forall c :: c in inputs ==> Asked(c, node, known).Value?
  {
    forall c | c in inputs ensures Asked(c, node, known).Value? {
      var i :| 0 <= i < |inputs| && inputs[i] == c;
      assert VerdictsFor(inputs, node, known)[i] in VerdictsFor(inputs, node, known);
    }
  }

  // The selection a payment came from, every coin of it proven and remembered.
  ghost predicate PaidBy(utxos: seq<Utxo>, need: int, exclude: set<Outpoint>, inputs: seq<Coin>, known: Known) {
    && Selected(utxos, need, exclude).Some? && Selected(utxos, need, exclude).value.inputs == inputs
    && forall c :: c in inputs ==> c.at in known
  }

  lemma RoundVerdicts(inputs: seq<Coin>, node: Node, known: Known)
    requires TrueKnown(known)
    ensures forall k :: 0 <= k < |inputs| && VerdictsFor(inputs, node, known)[k].Value? ==> IsValue(VerdictsFor(inputs, node, known)[k].v)
  {
    forall k | 0 <= k < |inputs| && VerdictsFor(inputs, node, known)[k].Value? ensures IsValue(VerdictsFor(inputs, node, known)[k].v) {
      AskedIsTrue(inputs[k], node, known);
    }
  }

  // What a verification says about the verdicts.
  lemma SettledBy(inputs: seq<Coin>, verdicts: seq<Verdict>, r: Verification)
    requires |inputs| == |verdicts|
    requires (forall v :: v in verdicts ==> !Decisive(v)) ==> r == Folded(inputs, verdicts)
    requires (exists v :: v in verdicts && Decisive(v)) ==> r == TamperRefused || r == TransientRefused
    ensures r.Verified? ==> (forall v :: v in verdicts ==> v.Value?) && r.total == Total(verdicts) && IsSafe(r.total)
    ensures r.SkipCoins? ==> r == Folded(inputs, verdicts)
    ensures (forall v :: v in verdicts ==> v.Value?) && IsSafe(Total(verdicts)) ==> r == Verified(Total(verdicts))
  {
    if forall v :: v in verdicts ==> !Decisive(v) {
      FoldedMeans(inputs, verdicts);
    }
  }

  lemma SkipsAreInputs(inputs: seq<Coin>, verdicts: seq<Verdict>)
    requires |inputs| == |verdicts| && Folded(inputs, verdicts).SkipCoins?
    ensures var r := Folded(inputs, verdicts); Keys(r.coins) <= Keys(inputs) && Keys(r.ghosts) <= Keys(inputs)
  {
    WithIs(inputs, verdicts, NotFound);
    WithIs(inputs, verdicts, Horizon);
    WithIs(inputs, verdicts, Unrepresentable);
  }

  lemma KeysSnoc(coins: seq<Coin>, i: nat, exclude: set<Outpoint>)
    requires i < |coins|
    ensures exclude + Keys(coins[..i + 1]) == exclude + Keys(coins[..i]) + {coins[i].at}
  {
    assert coins[..i + 1] == coins[..i] + [coins[i]];
  }
}
