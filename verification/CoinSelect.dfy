// Choosing which coins to spend: the spendable coins of a node's report, and the largest-first selection over them.

module CoinSelect {
  import opened Base
  import Blocks

  const MAX_TX_INPUTS: nat := 512

  // The coin an opKey names: the txid in its normal spelling, and the output index.
  datatype Outpoint = Outpoint(txid: Blocks.Hash, vout: int)

  // One reported coin. A field that is not a finite number reads as None.
  datatype Utxo = Utxo(at: Outpoint, value: Option<int>, confirmations: Option<int>, coinbase: bool)

  datatype Coin = Coin(at: Outpoint, value: int, coinbase: bool)

  datatype Selection = Selection(inputs: seq<Coin>, total: int)

  function Keys(coins: seq<Coin>): set<Outpoint> { set c | c in coins :: c.at }

  predicate Spendable(u: Utxo, exclude: set<Outpoint>) {
    && u.confirmations.Some? && u.confirmations.value >= 1
    && u.value.Some? && u.value.value > 0 && IsSafe(u.value.value)
    && u.at !in exclude
  }

  // The spendable coins in reported order, each outpoint once.
  function Eligible(utxos: seq<Utxo>, exclude: set<Outpoint>): seq<Coin> {
    if utxos == [] then []
    else
      var before, u := Eligible(utxos[..|utxos| - 1], exclude), utxos[|utxos| - 1];
      if Spendable(u, exclude) && u.at !in Keys(before) then before + [Coin(u.at, u.value.value, u.coinbase)] else before
  }

  function CoinOf(u: Utxo): Coin
    requires u.value.Some?
  {
    Coin(u.at, u.value.value, u.coinbase)
  }

  // Report i is the first spendable one of its outpoint.
  ghost predicate FirstReport(utxos: seq<Utxo>, exclude: set<Outpoint>, i: int) {
    && 0 <= i < |utxos| && Spendable(utxos[i], exclude)
    && forall j :: 0 <= j < i && utxos[j].at == utxos[i].at ==> !Spendable(utxos[j], exclude)
  }

  ghost predicate IsReported(utxos: seq<Utxo>, exclude: set<Outpoint>, c: Coin) {
    exists i :: FirstReport(utxos, exclude, i) && c == CoinOf(utxos[i])
  }

  // Whether one more report makes a coin.
  lemma ReportedSnoc(before: seq<Utxo>, u: Utxo, exclude: set<Outpoint>, c: Coin)
    ensures IsReported(before + [u], exclude, c) <==>
      IsReported(before, exclude, c) || (FirstReport(before + [u], exclude, |before|) && c == CoinOf(u))
  {
    var utxos, n := before + [u], |before|;
    assert forall j :: 0 <= j < n ==> utxos[j] == before[j];
    if IsReported(utxos, exclude, c) {
      var i :| FirstReport(utxos, exclude, i) && c == CoinOf(utxos[i]);
      if i < n { assert FirstReport(before, exclude, i) && c == CoinOf(before[i]); }
    }
    if IsReported(before, exclude, c) {
      var i :| FirstReport(before, exclude, i) && c == CoinOf(before[i]);
      assert FirstReport(utxos, exclude, i) && c == CoinOf(utxos[i]);
    }
  }

  // Every spendable report's outpoint has a coin, and a coin is a report's.
  lemma {:induction false} EligibleKeys(utxos: seq<Utxo>, exclude: set<Outpoint>)
    ensures forall k :: k in Keys(Eligible(utxos, exclude)) <==> exists i :: 0 <= i < |utxos| && Spendable(utxos[i], exclude) && utxos[i].at == k
  {
    if utxos != [] {
      var before, u := utxos[..|utxos| - 1], utxos[|utxos| - 1];
      EligibleKeys(before, exclude);
      var coins := Eligible(before, exclude);
      assert Keys(coins + [Coin(u.at, if u.value.Some? then u.value.value else 0, u.coinbase)]) == Keys(coins) + {u.at};
      hide Spendable;
      assert utxos == before + [u];
    }
  }

  // The eligible coins are the first spendable reports of their outpoints, all of them and no others.
  lemma {:induction false} EligibleIs(utxos: seq<Utxo>, exclude: set<Outpoint>, c: Coin)
    ensures c in Eligible(utxos, exclude) <==> IsReported(utxos, exclude, c)
  {
    if utxos != [] {
      var before, u := utxos[..|utxos| - 1], utxos[|utxos| - 1];
      EligibleIs(before, exclude, c);
      EligibleKeys(before, exclude);
      assert utxos == before + [u];
      ReportedSnoc(before, u, exclude, c);
      hide IsReported, Keys;
    }
  }

  lemma {:induction false} EligibleDistinct(utxos: seq<Utxo>, exclude: set<Outpoint>)
    ensures var coins := Eligible(utxos, exclude);
      && DistinctCoins(coins)
      && (forall c :: c in coins ==> 0 < c.value <= MAX_SAFE && c.at !in exclude)
  {
    if utxos != [] {
      var before, coins := Eligible(utxos[..|utxos| - 1], exclude), Eligible(utxos, exclude);
      EligibleDistinct(utxos[..|utxos| - 1], exclude);
      forall i, j | 0 <= i < j < |coins| ensures coins[i].at != coins[j].at {
        assert coins[i] == before[i] && before[i] in before;
      }
    }
  }

  // ---- Largest first ----

  function InsertDesc(s: seq<Coin>, c: Coin): seq<Coin> {
    if s == [] then [c] else if s[|s| - 1].value >= c.value then s + [c] else InsertDesc(s[..|s| - 1], c) + [s[|s| - 1]]
  }

  // Stable descending sort by value.
  function SortDesc(s: seq<Coin>): seq<Coin> {
    if s == [] then [] else InsertDesc(SortDesc(s[..|s| - 1]), s[|s| - 1])
  }

  ghost predicate Descending(s: seq<Coin>) { forall i, j :: 0 <= i < j < |s| ==> s[i].value >= s[j].value }

  lemma {:induction false} InsertDescKeeps(s: seq<Coin>, c: Coin)
    ensures multiset(InsertDesc(s, c)) == multiset(s) + multiset{c} && |InsertDesc(s, c)| == |s| + 1
  {
    if s != [] {
      assert s == s[..|s| - 1] + [s[|s| - 1]];
      if s[|s| - 1].value < c.value { InsertDescKeeps(s[..|s| - 1], c); }
    }
  }

  lemma {:induction false} InsertDescSorts(s: seq<Coin>, c: Coin)
    requires Descending(s)
    ensures Descending(InsertDesc(s, c)) && multiset(InsertDesc(s, c)) == multiset(s) + multiset{c} && |InsertDesc(s, c)| == |s| + 1
  {
    InsertDescKeeps(s, c);
    if s != [] && s[|s| - 1].value < c.value {
      var init, last := s[..|s| - 1], s[|s| - 1];
      InsertDescSorts(init, c);
      var r := InsertDesc(init, c);
      forall i | 0 <= i < |r| ensures r[i].value >= last.value {
        assert r[i] in multiset(r);
        assert r[i] in init || r[i] == c;
      }
    }
  }

  lemma {:induction false} SortDescSorts(s: seq<Coin>)
    ensures Descending(SortDesc(s)) && multiset(SortDesc(s)) == multiset(s) && |SortDesc(s)| == |s|
  {
    if s != [] {
      SortDescSorts(s[..|s| - 1]);
      InsertDescSorts(SortDesc(s[..|s| - 1]), s[|s| - 1]);
      assert s == s[..|s| - 1] + [s[|s| - 1]];
    }
  }

  function Sum(s: seq<Coin>): int { if s == [] then 0 else Sum(s[..|s| - 1]) + s[|s| - 1].value }

  // The smallest number of leading coins, at least one, that covers `need`, or |s| + 1 when none does.
  function Enough(s: seq<Coin>, need: int): nat {
    if s == [] then 1
    else
      var n := Enough(s[..|s| - 1], need);
      if n < |s| then n else if Sum(s) >= need then |s| else |s| + 1
  }

  lemma {:induction false} EnoughIsLeast(s: seq<Coin>, need: int)
    ensures var n := Enough(s, need);
      && 1 <= n <= |s| + 1
      && (n <= |s| ==> Sum(s[..n]) >= need)
      && forall k :: 1 <= k < n ==> Sum(s[..k]) < need
  {
    if s != [] {
      var before := s[..|s| - 1];
      EnoughIsLeast(before, need);
      assert forall k :: 0 <= k < |s| ==> before[..k] == s[..k];
      assert s[..|s|] == s;
    }
  }

  // `take`: the leading coins of the sorted pool up to the need, none past the input limit or the safe range.
  function Taken(pool: seq<Coin>, need: int): Option<Selection> { TakenFrom(SortDesc(pool), need) }

  function TakenFrom(s: seq<Coin>, need: int): Option<Selection> {
    var n := Enough(s, need);
    if n <= |s| && n <= MAX_TX_INPUTS && IsSafe(Sum(s[..n])) then Some(Selection(s[..n], Sum(s[..n]))) else None
  }

  method Take(pool: seq<Coin>, need: int) returns (r: Option<Selection>)
    requires forall c :: c in pool ==> 0 < c.value <= MAX_SAFE
    ensures r == Taken(pool, need)
  {
    SortDescSorts(pool);
    var s := SortDesc(pool);
    forall c | c in s ensures 0 < c.value <= MAX_SAFE { assert c in multiset(s); }
    r := TakeFrom(s, need);
  }

  lemma EnoughAt(s: seq<Coin>, need: int, i: nat)
    requires 1 <= i <= |s| && i <= Enough(s, need) && Sum(s[..i]) >= need
    ensures Enough(s, need) == i
  {
    EnoughIsLeast(s, need);
  }

  method TakeFrom(s: seq<Coin>, need: int) returns (r: Option<Selection>)
    requires forall c :: c in s ==> 0 < c.value <= MAX_SAFE
    ensures r == TakenFrom(s, need)
  {
    EnoughIsLeast(s, need);
    var n := Enough(s, need);
    hide Enough;
    var inputs: seq<Coin>, total, i := [], 0, 0;
    while i < |s|
      invariant 0 <= i <= |s| && i <= MAX_TX_INPUTS && i < n
      invariant inputs == s[..i] && total == Sum(s[..i]) && 0 <= total <= MAX_SAFE
    {
      assert s[..i + 1][..i] == s[..i];
      total := total + s[i].value;
      if !IsSafe(total) {
        if n <= |s| { SumGrows(s, i + 1, n); }
        return None;
      }
      inputs := inputs + [s[i]];
      i := i + 1;
      assert total == Sum(s[..i]);
      if |inputs| > MAX_TX_INPUTS { return None; }
      if total >= need {
        EnoughAt(s, need, i);
        assert inputs == s[..i];
        return Some(Selection(inputs, total));
      }
    }
    assert s[..|s|] == s;
    r := None;
  }

  lemma {:induction false} SumGrows(s: seq<Coin>, i: nat, j: nat)
    requires i <= j <= |s| && forall c :: c in s ==> 0 < c.value
    ensures Sum(s[..i]) <= Sum(s[..j])
    decreases j
  {
    if i < j {
      SumGrows(s, i, j - 1);
      assert s[..j][..j - 1] == s[..j - 1] && s[j - 1] in s;
    }
  }

  // ---- Selection ----

  function NotCoinbase(s: seq<Coin>): seq<Coin> {
    if s == [] then []
    else
      var rest, c := NotCoinbase(s[..|s| - 1]), s[|s| - 1];
      if c.coinbase then rest else rest + [c]
  }

  // selectInputs: from the coins that are not coinbases alone if they cover the need, else from all of them.
  function Selected(utxos: seq<Utxo>, need: int, exclude: set<Outpoint>): Option<Selection> {
    var pool := Eligible(utxos, exclude);
    var plain := Taken(NotCoinbase(pool), need);
    if plain.Some? then plain else Taken(pool, need)
  }

  lemma {:induction false} NotCoinbaseIs(s: seq<Coin>)
    ensures forall c :: c in NotCoinbase(s) <==> c in s && !c.coinbase
  {
    if s != [] {
      NotCoinbaseIs(s[..|s| - 1]);
      assert s == s[..|s| - 1] + [s[|s| - 1]];
    }
  }

  method SelectInputs(utxos: seq<Utxo>, need: int, exclude: set<Outpoint>) returns (r: Option<Selection>)
    ensures r == Selected(utxos, need, exclude)
  {
    var confirmed: seq<Coin>, seen: set<Outpoint> := [], {};
    for i := 0 to |utxos|
      invariant confirmed == Eligible(utxos[..i], exclude) && seen == Keys(confirmed)
    {
      assert utxos[..i + 1][..i] == utxos[..i];
      var u := utxos[i];
      if Spendable(u, exclude) && u.at !in seen {
        seen := seen + {u.at};
        confirmed := confirmed + [Coin(u.at, u.value.value, u.coinbase)];
      }
    }
    assert utxos[..|utxos|] == utxos;
    EligibleDistinct(utxos, exclude);
    NotCoinbaseIs(confirmed);
    r := Take(NotCoinbase(confirmed), need);
    if r.None? { r := Take(confirmed, need); }
  }

  // The wallet's own list: each reported coin on its own put to selectInputs, each outpoint once.
  method SpendableCoins(utxos: seq<Utxo>, exclude: set<Outpoint>) returns (coins: seq<Coin>)
    ensures coins == Eligible(utxos, exclude)
  {
    coins := [];
    var seen: set<Outpoint> := {};
    for i := 0 to |utxos|
      invariant coins == Eligible(utxos[..i], exclude) && seen == Keys(coins)
    {
      assert utxos[..i + 1][..i] == utxos[..i];
      var u := utxos[i];
      if u.at !in seen {
        var c := SelectOne(u, exclude);
        if c.Some? {
          seen := seen + {u.at};
          coins := coins + [c.value];
        }
      }
    }
    assert utxos[..|utxos|] == utxos;
  }

  method SelectOne(u: Utxo, exclude: set<Outpoint>) returns (c: Option<Coin>)
    ensures c == if Spendable(u, exclude) then Some(Coin(u.at, u.value.value, u.coinbase)) else None
  {
    OneCoin(u, exclude);
    var one := SelectInputs([u], 1, exclude);
    c := if one.Some? then Some(one.value.inputs[0]) else None;
  }

  // selectInputs on one coin and a need of one answers exactly whether it is spendable.
  lemma OneCoin(u: Utxo, exclude: set<Outpoint>)
    ensures var r := Selected([u], 1, exclude);
      if Spendable(u, exclude)
      then r.Some? && r.value.inputs == [Coin(u.at, u.value.value, u.coinbase)]
      else r.None?
  {
    assert [u][..0] == [];
    if Spendable(u, exclude) {
      var c := Coin(u.at, u.value.value, u.coinbase);
      assert Eligible([u], exclude) == [c];
      assert [c][..0] == [] && [c][..1] == [c];
      assert SortDesc([c]) == [c] && Sum([c]) == c.value && Enough([c], 1) == 1;
      assert NotCoinbase([c]) == if c.coinbase then [] else [c];
    } else {
      assert Eligible([u], exclude) == [];
    }
  }

  // ---- What a selection means ----

  // The coins of `s` a choice picks, by position.
  function Picked(s: seq<Coin>, picks: seq<bool>): seq<Coin>
    requires |picks| == |s|
  {
    if s == [] then []
    else
      var rest := Picked(s[..|s| - 1], picks[..|s| - 1]);
      if picks[|s| - 1] then rest + [s[|s| - 1]] else rest
  }

  // No choice of k coins is worth more than the k largest.
  lemma {:induction false} LargestAreBest(s: seq<Coin>, picks: seq<bool>)
    requires |picks| == |s| && Descending(s)
    ensures |Picked(s, picks)| <= |s| && Sum(Picked(s, picks)) <= Sum(s[..|Picked(s, picks)|])
  {
    if s != [] {
      var n := |s| - 1;
      var init, rest := s[..n], Picked(s[..n], picks[..n]);
      LargestAreBest(init, picks[..n]);
      if picks[n] {
        assert (rest + [s[n]])[..|rest|] == rest;
        assert s[..|rest| + 1][..|rest|] == init[..|rest|];
      } else {
        assert s[..|rest|] == init[..|rest|];
      }
    }
  }

  // A choice of coins that some transaction could spend towards `need`.
  ghost predicate Covers(s: seq<Coin>, picks: seq<bool>, need: int) {
    |picks| == |s| && 1 <= |Picked(s, picks)| <= MAX_TX_INPUTS && Sum(Picked(s, picks)) >= need
  }

  function FirstOf(n: nat, k: nat): seq<bool> { seq(n, i => i < k) }

  lemma {:induction false} PickedFirst(s: seq<Coin>, k: nat)
    requires k <= |s|
    ensures Picked(s, FirstOf(|s|, k)) == s[..k]
  {
    if s != [] {
      var n := |s| - 1;
      assert FirstOf(|s|, k)[..n] == FirstOf(n, Min(k, n));
      PickedFirst(s[..n], Min(k, n));
    }
  }

  // Added up largest first, at most 512 of them, the coins pass the safe-integer range before any fewer cover the need.
  ghost predicate Overflows(s: seq<Coin>, need: int) {
    exists k :: 1 <= k <= |s| && k <= MAX_TX_INPUTS && Sum(s[..k]) > MAX_SAFE && forall j :: 1 <= j < k ==> Sum(s[..j]) < need
  }

  // No choice of at most 512 coins of the pool covers the need, or the sum overflows on the way.
  ghost predicate YieldsNothing(pool: seq<Coin>, need: int) {
    (forall picks :: !Covers(SortDesc(pool), picks, need)) || Overflows(SortDesc(pool), need)
  }

  lemma {:induction false} TakenNoneIff(pool: seq<Coin>, need: int)
    requires forall c :: c in pool ==> c.value > 0
    ensures Taken(pool, need).None? <==> YieldsNothing(pool, need)
  {
    hide SortDesc, Enough, Overflows, Covers;
    var s := SortDesc(pool);
    var n := Enough(s, need);
    SortDescSorts(pool);
    forall c | c in s ensures c.value > 0 { assert c in multiset(s); }
    EnoughIsLeast(s, need);
    if n <= |s| && n <= MAX_TX_INPUTS {
      CoveredBy(s, need, n);
      OverflowsAt(s, need, n);
    } else {
      forall picks ensures !Covers(s, picks, need) { NeverCovered(s, need, n, picks); }
    }
  }

  lemma CoveredBy(s: seq<Coin>, need: int, n: nat)
    requires 1 <= n <= |s| && n <= MAX_TX_INPUTS && Sum(s[..n]) >= need
    ensures exists picks :: Covers(s, picks, need)
  {
    PickedFirst(s, n);
    assert Covers(s, FirstOf(|s|, n), need);
  }

  lemma NeverCovered(s: seq<Coin>, need: int, n: nat, picks: seq<bool>)
    requires Descending(s) && (n > |s| || n > MAX_TX_INPUTS) && forall k :: 1 <= k < n && k <= |s| ==> Sum(s[..k]) < need
    ensures !Covers(s, picks, need)
  {
    if Covers(s, picks, need) { LargestAreBest(s, picks); }
  }

  // With the fewest that cover within the limit, the sum overflows exactly when theirs does.
  lemma OverflowsAt(s: seq<Coin>, need: int, n: nat)
    requires 1 <= n <= |s| && n <= MAX_TX_INPUTS && Sum(s[..n]) >= need && forall k :: 1 <= k < n ==> Sum(s[..k]) < need
    requires forall c :: c in s ==> c.value > 0
    ensures Overflows(s, need) <==> !IsSafe(Sum(s[..n]))
  {
    SumsGrow(s, 0, n);
    if Overflows(s, need) {
      var k :| 1 <= k <= |s| && k <= MAX_TX_INPUTS && Sum(s[..k]) > MAX_SAFE && forall j :: 1 <= j < k ==> Sum(s[..j]) < need;
      SumsGrow(s, k, n);
    }
  }

  lemma {:induction false} SumsGrow(s: seq<Coin>, k: nat, n: nat)
    requires k <= n <= |s| && forall c :: c in s ==> c.value > 0
    ensures Sum(s[..k]) <= Sum(s[..n]) && Sum(s[..0]) == 0
  {
    if k < n {
      SumsGrow(s, k, n - 1);
      assert s[..n][..n - 1] == s[..n - 1];
    }
  }

  // No selection exactly when neither the plain coins nor all of them yield one.
  lemma NoSelectionMeansUncoverable(utxos: seq<Utxo>, need: int, exclude: set<Outpoint>)
    ensures var pool := Eligible(utxos, exclude);
      Selected(utxos, need, exclude).None? <==> YieldsNothing(NotCoinbase(pool), need) && YieldsNothing(pool, need)
  {
    var pool := Eligible(utxos, exclude);
    EligibleDistinct(utxos, exclude);
    NotCoinbaseIs(pool);
    hide Taken, YieldsNothing, SortDesc, NotCoinbase, Eligible;
    TakenNoneIff(NotCoinbase(pool), need);
    TakenNoneIff(pool, need);
  }

  // The refusal past the safe range is a refusal of coins that cover: two of them, each below the range, need one unit more.
  lemma OverflowRefusesCoverable(a: Coin, b: Coin)
    requires a.value == MAX_SAFE && b.value == MAX_SAFE && !a.coinbase && !b.coinbase
    ensures Taken([a, b], MAX_SAFE + 1).None? && Covers(SortDesc([a, b]), [true, true], MAX_SAFE + 1)
  {
    assert SortDesc([a]) == [a] by { assert [a][..0] == []; }
    assert [a, b][..1] == [a];
    assert SortDesc([a, b]) == [a, b];
    assert Sum([a]) == MAX_SAFE by { assert [a][..0] == []; }
    assert Sum([a, b]) == 2 * MAX_SAFE;
    assert [true, true][..1] == [true] && [true][..0] == [];
    assert Picked([a], [true]) == [a] && Picked([a, b], [true, true]) == [a, b];
    assert Enough([], MAX_SAFE + 1) == 1;
    assert Enough([a], MAX_SAFE + 1) == 2;
    assert Enough([a, b], MAX_SAFE + 1) == 2 && [a, b][..2] == [a, b];
  }

  // A selection without coinbases is one all the coins offer too.
  lemma PlainSelectionCovers(utxos: seq<Utxo>, need: int, exclude: set<Outpoint>)
    requires Taken(NotCoinbase(Eligible(utxos, exclude)), need).Some?
    ensures var s := SortDesc(Eligible(utxos, exclude)); exists picks :: Covers(s, picks, need)
  {
    var pool := Eligible(utxos, exclude);
    var s, plain := SortDesc(pool), SortDesc(NotCoinbase(pool));
    NotCoinbaseSorted(pool);
    var n := Enough(plain, need);
    EnoughIsLeast(plain, need);
    var picks := PickPrefix(s, n);
    assert Covers(s, picks, need);
  }

  // Sorting and dropping coinbases commute.
  lemma {:induction false} NotCoinbaseSorted(s: seq<Coin>)
    ensures SortDesc(NotCoinbase(s)) == NotCoinbase(SortDesc(s))
  {
    if s != [] {
      var init, c := s[..|s| - 1], s[|s| - 1];
      NotCoinbaseSorted(init);
      SortDescSorts(init);
      NotCoinbaseInsert(SortDesc(init), c);
      if !c.coinbase { assert (NotCoinbase(init) + [c])[..|NotCoinbase(init)|] == NotCoinbase(init); }
    }
  }

  lemma {:induction false} NotCoinbaseInsert(s: seq<Coin>, c: Coin)
    requires Descending(s)
    ensures NotCoinbase(InsertDesc(s, c)) == if c.coinbase then NotCoinbase(s) else InsertDesc(NotCoinbase(s), c)
  {
    if s != [] {
      var init, last := s[..|s| - 1], s[|s| - 1];
      if last.value >= c.value {
        assert (s + [c])[..|s|] == s;
        if last.coinbase { AfterAll(NotCoinbase(init), c) by { NotCoinbaseIs(init); assert forall x :: x in init ==> x.value >= last.value; } }
      } else {
        NotCoinbaseInsert(init, c);
        assert (InsertDesc(init, c) + [last])[..|InsertDesc(init, c)|] == InsertDesc(init, c);
        if !last.coinbase {
          var rest := NotCoinbase(init);
          assert (rest + [last])[..|rest|] == rest;
        }
      }
    }
  }

  lemma AfterAll(s: seq<Coin>, c: Coin)
    requires forall x :: x in s ==> x.value >= c.value
    ensures InsertDesc(s, c) == s + [c]
  {
    if s != [] { assert s[|s| - 1] in s; }
  }

  // The positions in `s` of the first n coins that are not coinbases.
  ghost function PickPrefix(s: seq<Coin>, n: nat): (picks: seq<bool>)
    requires n <= |NotCoinbase(s)|
    ensures |picks| == |s| && Picked(s, picks) == NotCoinbase(s)[..n]
  {
    if s == [] then []
    else
      var init, c := s[..|s| - 1], s[|s| - 1];
      var take := !c.coinbase && n == |NotCoinbase(s)|;
      var before := PickPrefix(init, if take then n - 1 else Min(n, |NotCoinbase(init)|));
      assert (before + [take])[..|s| - 1] == before;
      before + [take]
  }

  ghost predicate DistinctCoins(s: seq<Coin>) { forall i, j :: 0 <= i < j < |s| ==> s[i].at != s[j].at }

  // A spend's inputs: distinct coins of the pool, at most 512, worth `total`, which covers the need.
  ghost predicate FitSpend(sel: Selection, pool: seq<Coin>, need: int) {
    && 1 <= |sel.inputs| <= MAX_TX_INPUTS && sel.total == Sum(sel.inputs) >= need && IsSafe(sel.total)
    && DistinctCoins(sel.inputs) && forall c :: c in sel.inputs ==> c in pool
  }

  // No choice of fewer coins from the pool covers the need.
  ghost predicate Fewest(sel: Selection, pool: seq<Coin>, need: int) {
    forall picks :: Covers(SortDesc(pool), picks, need) ==> |Picked(SortDesc(pool), picks)| >= |sel.inputs|
  }

  // A selection fits, and uses the fewest coins of the pool it is from: the plain coins, or all of them when the plain
  // ones do not cover the need.
  lemma SelectionIsLeast(utxos: seq<Utxo>, need: int, exclude: set<Outpoint>)
    requires Selected(utxos, need, exclude).Some?
    ensures var sel, pool := Selected(utxos, need, exclude).value, Eligible(utxos, exclude);
      FitSpend(sel, pool, need) && (Fewest(sel, NotCoinbase(pool), need) || Fewest(sel, pool, need))
  {
    var pool := Eligible(utxos, exclude);
    EligibleDistinct(utxos, exclude);
    hide Taken, Eligible, Covers, SortDesc;
    NotCoinbaseDistinct(pool);
    NotCoinbaseIs(pool);
    if Taken(NotCoinbase(pool), need).Some? { TakenIsLeast(NotCoinbase(pool), need); } else { TakenIsLeast(pool, need); }
  }

  lemma {:induction false} NotCoinbaseDistinct(s: seq<Coin>)
    requires DistinctCoins(s)
    ensures DistinctCoins(NotCoinbase(s))
  {
    if s != [] {
      var init, p := s[..|s| - 1], NotCoinbase(s);
      NotCoinbaseDistinct(init);
      NotCoinbaseIs(init);
      forall i, j | 0 <= i < j < |p| ensures p[i].at != p[j].at {
        assert p[i] == NotCoinbase(init)[i] && p[i] in NotCoinbase(init);
      }
    }
  }

  lemma TakenIsLeast(pool: seq<Coin>, need: int)
    requires Taken(pool, need).Some? && DistinctCoins(pool)
    ensures FitSpend(Taken(pool, need).value, pool, need) && Fewest(Taken(pool, need).value, pool, need)
  {
    var s := SortDesc(pool);
    var n := Enough(s, need);
    SortDescSorts(pool);
    EnoughIsLeast(s, need);
    SortedKeepsDistinct(pool, s);
    hide SortDesc, Enough;
    forall c | c in s[..n] ensures c in pool { assert c in multiset(s); }
    forall picks | Covers(s, picks, need) ensures |Picked(s, picks)| >= n { LargestAreBest(s, picks); }
  }

  // A rearrangement of coins with distinct outpoints has distinct outpoints.
  lemma SortedKeepsDistinct(pool: seq<Coin>, s: seq<Coin>)
    requires multiset(pool) == multiset(s) && DistinctCoins(pool)
    ensures DistinctCoins(s)
  {
    forall i, j | 0 <= i < j < |s| ensures s[i].at != s[j].at {
      assert multiset(pool)[s[i]] > 0 && multiset(pool)[s[j]] > 0;
      var a :| 0 <= a < |pool| && pool[a] == s[i];
      var b :| 0 <= b < |pool| && pool[b] == s[j];
      if a == b {
        OnceOnly(pool, a);
        TwiceAtLeast(s, i, j);
      }
    }
  }

  lemma OnceOnly(pool: seq<Coin>, a: nat)
    requires a < |pool| && DistinctCoins(pool)
    ensures multiset(pool)[pool[a]] == 1
  {
    assert pool == pool[..a] + [pool[a]] + pool[a + 1..];
    assert pool[a] !in pool[..a] && pool[a] !in pool[a + 1..];
  }

  lemma TwiceAtLeast(s: seq<Coin>, i: nat, j: nat)
    requires i < j < |s| && s[i] == s[j]
    ensures multiset(s)[s[i]] >= 2
  {
    assert s == s[..i] + [s[i]] + s[i + 1..j] + [s[j]] + s[j + 1..];
  }
}
