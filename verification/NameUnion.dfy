// The union of what the name sources serve, its verdict, and what a send is told: the address of the proven winner, a
// refusal, or the served address marked unverified.

module NameUnion {
  import opened Base
  import opened Names
  import opened NameCache
  import Blocks
  import Headers

  // One source's answer. `sufficient` is its scopedReplaySufficient flag.
  datatype Source = Source(ok: bool, unregistered: bool, claim: Claim, hints: seq<Hint>, sufficient: Option<bool>)

  datatype Reason = NotRegistered | Unavailable | LeaseLapsed | MaybeLapsed | ReplayFailed(why: Why) | FillAcquired | ScopeInsufficient

  datatype Verification =
    | Verified(addr: string, owner: string, nset: bool, depth: int, sources: nat, disagree: bool, sole: bool, recovered: bool,
               pairs: Option<seq<HintPair>>)
    | Unverified(reason: Reason, sources: nat, lapsed: bool, viaFill: bool)

  // ---- The union ----

  predicate BelowFloor(h: Hint) { h.height.Some? && h.height.value < Headers.FLOOR_HEIGHT }

  function AboveFloor(hints: seq<Hint>): seq<Hint> {
    if hints == [] then []
    else AboveFloor(hints[..|hints| - 1]) + if BelowFloor(hints[|hints| - 1]) then [] else [hints[|hints| - 1]]
  }

  // The sources that serve something, their hints below the names floor dropped.
  function Usable(results: seq<Source>): seq<Source> {
    if results == [] then []
    else
      var before, s := Usable(results[..|results| - 1]), results[|results| - 1];
      var kept := s.(hints := AboveFloor(s.hints));
      if s.ok && kept.hints != [] then before + [kept] else before
  }

  function AllHints(usable: seq<Source>): seq<Hint> {
    if usable == [] then [] else AllHints(usable[..|usable| - 1]) + usable[|usable| - 1].hints
  }

  // The first hint with this txid.
  function First(hints: seq<Hint>, txid: string): Option<Hint> {
    if hints == [] then None
    else
      var before := First(hints[..|hints| - 1], txid);
      if before.Some? then before
      else if LowerCase(hints[|hints| - 1].txid) == txid then Some(hints[|hints| - 1]) else None
  }

  function Union(hints: seq<Hint>): seq<Hint> {
    if hints == [] then []
    else
      var before, h := hints[..|hints| - 1], hints[|hints| - 1];
      Union(before) + if First(before, LowerCase(h.txid)).Some? then [] else [h]
  }

  predicate Differ(a: Hint, b: Hint) { a.height.None? || a.height != b.height }

  // Two sources place one txid at two heights.
  predicate Conflicts(hints: seq<Hint>) {
    hints != [] &&
    var before, h := hints[..|hints| - 1], hints[|hints| - 1];
    Conflicts(before) || (First(before, LowerCase(h.txid)).Some? && Differ(First(before, LowerCase(h.txid)).value, h))
  }

  predicate Unregistered(results: seq<Source>) { exists s :: s in results && s.unregistered }

  predicate Dropped(results: seq<Source>) { exists s :: s in results && exists h :: h in s.hints && BelowFloor(h) }

  lemma {:induction false} FirstIs(hints: seq<Hint>, h: Hint)
    requires h in hints
    ensures First(hints, LowerCase(h.txid)).Some?
  {
    if h != hints[|hints| - 1] { FirstIs(hints[..|hints| - 1], h); }
  }

  // A source can only add to the union: every txid it serves is there, once, as the first source to name it served it,
  // and at the same height unless the sources conflict.
  lemma {:induction false} UnionAdds(hints: seq<Hint>, h: Hint)
    requires h in hints
    ensures First(hints, LowerCase(h.txid)).Some? && First(hints, LowerCase(h.txid)).value in Union(hints)
    ensures !Conflicts(hints) ==> h.height == First(hints, LowerCase(h.txid)).value.height
  {
    FirstIs(hints, h);
    var before, last := hints[..|hints| - 1], hints[|hints| - 1];
    assert h in before || h == last;
    if h in before {
      FirstIs(before, h);
      UnionAdds(before, h);
    } else if First(before, LowerCase(h.txid)).Some? {
      FirstInUnion(before, LowerCase(h.txid));
    }
  }

  lemma {:induction false} FirstInUnion(hints: seq<Hint>, txid: string)
    requires First(hints, txid).Some?
    ensures First(hints, txid).value in Union(hints) && First(hints, txid).value in hints && LowerCase(First(hints, txid).value.txid) == txid
  {
    var before := hints[..|hints| - 1];
    if First(before, txid).Some? {
      FirstInUnion(before, txid);
    }
  }

  // A conflict is two hints of one txid that no common height settles.
  lemma {:induction false} ConflictsIff(hints: seq<Hint>)
    ensures Conflicts(hints) <==> exists i, j :: 0 <= i < j < |hints| && Clash(hints[i], hints[j])
  {
    if hints != [] {
      var before, n := hints[..|hints| - 1], |hints| - 1;
      ConflictsIff(before);
      var key := LowerCase(hints[n].txid);
      if Conflicts(before) {
        var i, j :| 0 <= i < j < |before| && Clash(before[i], before[j]);
        assert Clash(hints[i], hints[j]);
      } else if First(before, key).Some? && Differ(First(before, key).value, hints[n]) {
        FirstInUnion(before, key);
        var i :| 0 <= i < |before| && before[i] == First(before, key).value;
        assert Clash(hints[i], hints[n]);
      }
      if i, j :| 0 <= i < j < |hints| && Clash(hints[i], hints[j]) {
        if j < n {
          assert Clash(before[i], before[j]);
        } else if !Conflicts(before) {
          FirstIs(before, before[i]);
          FirstClash(before, i);
        }
      }
    }
  }

  // One txid, and no whole height both give it.
  predicate Clash(a: Hint, b: Hint) { LowerCase(a.txid) == LowerCase(b.txid) && (a.height.None? || b.height.None? || a.height.value != b.height.value) }

  // Without a conflict each hint has its txid's first height.
  lemma {:induction false} FirstClash(hints: seq<Hint>, i: nat)
    requires i < |hints| && !Conflicts(hints) && First(hints, LowerCase(hints[i].txid)).Some?
    ensures First(hints, LowerCase(hints[i].txid)).value == hints[i] || !Differ(First(hints, LowerCase(hints[i].txid)).value, hints[i])
  {
    var before := hints[..|hints| - 1];
    if i < |before| { FirstIs(before, before[i]); FirstClash(before, i); }
  }

  lemma {:induction false} UnionIsServed(hints: seq<Hint>, u: Hint)
    requires u in Union(hints)
    ensures u in hints
  {
    var before := hints[..|hints| - 1];
    if u in Union(before) { UnionIsServed(before, u); }
  }

  // What one fetch of every source gives.
  datatype UnionFetch = UnionFetch(usable: seq<Source>, hints: seq<Hint>, conflict: bool, existenceDisagree: bool, belowFloor: bool)

  function FetchOf(results: seq<Source>): UnionFetch {
    var usable := Usable(results);
    UnionFetch(usable, Union(AllHints(usable)), Conflicts(AllHints(usable)), Unregistered(results), Dropped(results))
  }

  method FetchNameUnion(results: seq<Source>) returns (u: UnionFetch)
    ensures u == FetchOf(results)
  {
    var usable, unregistered, dropped := KeepUsable(results);
    var hints, conflict := UnionHints(usable);
    u := UnionFetch(usable, hints, conflict, unregistered, dropped);
  }

  method KeepUsable(results: seq<Source>) returns (usable: seq<Source>, unregistered: bool, dropped: bool)
    ensures usable == Usable(results) && unregistered == Unregistered(results) && dropped == Dropped(results)
  {
    hide AboveFloor;
    usable, unregistered, dropped := [], false, false;
    for i := 0 to |results|
      invariant usable == Usable(results[..i])
      invariant unregistered == Unregistered(results[..i]) && dropped == Dropped(results[..i])
    {
      assert results[..i + 1][..i] == results[..i];
      var s := results[i];
      FlagsGrow(results[..i], s);
      assert results[..i] + [s] == results[..i + 1];
      var kept := AboveFloor(s.hints);
      AboveFloorIs(s.hints);
      if |kept| != |s.hints| { dropped := true; }
      if s.ok && kept != [] { usable := usable + [s.(hints := kept)]; }
      if s.unregistered { unregistered := true; }
    }
    assert results[..|results|] == results;
  }

  lemma FlagsGrow(results: seq<Source>, s: Source)
    ensures Unregistered(results + [s]) <==> Unregistered(results) || s.unregistered
    ensures Dropped(results + [s]) <==> Dropped(results) || exists h :: h in s.hints && BelowFloor(h)
  {
    assert forall x :: x in results + [s] <==> x in results || x == s;
  }

  // The map from lower-case txid to the first hint served for it, and its values in insertion order.
  method UnionHints(usable: seq<Source>) returns (hints: seq<Hint>, conflict: bool)
    ensures hints == Union(AllHints(usable)) && conflict == Conflicts(AllHints(usable))
  {
    hide Union, Conflicts, First;
    hints, conflict := [], false;
    ghost var seen: seq<Hint> := [];
    var byTxid: map<string, Hint> := map[];
    NoneSeen();
    for i := 0 to |usable|
      invariant seen == AllHints(usable[..i])
      invariant hints == Union(seen) && conflict == Conflicts(seen) && Keyed(byTxid, seen)
    {
      assert usable[..i + 1][..i] == usable[..i];
      var hs := usable[i].hints;
      ghost var base := seen;
      assert base + hs[..0] == base;
      for j := 0 to |hs|
        invariant seen == base + hs[..j]
        invariant hints == Union(seen) && conflict == Conflicts(seen) && Keyed(byTxid, seen)
      {
        assert base + hs[..j + 1] == seen + [hs[j]];
        var key := LowerCase(hs[j].txid);
        UnionGrows(byTxid, seen, hs[j]);
        if key in byTxid {
          if Differ(byTxid[key], hs[j]) { conflict := true; }
        } else {
          byTxid := byTxid[key := hs[j]];
          hints := hints + [hs[j]];
        }
        seen := seen + [hs[j]];
      }
      assert hs[..|hs|] == hs;
    }
    assert usable[..|usable|] == usable;
  }

  lemma NoneSeen()
    ensures Union([]) == [] && !Conflicts([]) && Keyed(map[], [])
  {
  }

  ghost predicate Keyed(byTxid: map<string, Hint>, seen: seq<Hint>) {
    forall k :: (k in byTxid <==> First(seen, k).Some?) && (k in byTxid ==> First(seen, k).value == byTxid[k])
  }

  lemma {:induction false} UnionGrows(byTxid: map<string, Hint>, seen: seq<Hint>, h: Hint)
    requires Keyed(byTxid, seen)
    ensures var key := LowerCase(h.txid);
      && Keyed(if key in byTxid then byTxid else byTxid[key := h], seen + [h])
      && Union(seen + [h]) == Union(seen) + (if key in byTxid then [] else [h])
      && Conflicts(seen + [h]) == (Conflicts(seen) || (key in byTxid && Differ(byTxid[key], h)))
  {
    assert (seen + [h])[..|seen|] == seen;
  }

  lemma {:induction false} AboveFloorIs(hints: seq<Hint>)
    ensures |AboveFloor(hints)| <= |hints| && (|AboveFloor(hints)| != |hints| <==> exists h :: h in hints && BelowFloor(h))
  {
    if hints != [] {
      AboveFloorIs(hints[..|hints| - 1]);
      assert forall h :: h in hints <==> h in hints[..|hints| - 1] || h == hints[|hints| - 1];
    }
  }

  lemma {:induction false} AboveFloorKeeps(hints: seq<Hint>, h: Hint)
    ensures h in AboveFloor(hints) <==> h in hints && !(h.height.Some? && h.height.value < 29_960)
  {
    if hints != [] {
      AboveFloorKeeps(hints[..|hints| - 1], h);
      assert forall x :: x in hints <==> x in hints[..|hints| - 1] || x == hints[|hints| - 1];
    }
  }

  // What counts as served: the hints of the sources that answered, from the names floor up.
  lemma {:induction false} UnionHolds(results: seq<Source>, h: Hint)
    ensures h in AllHints(Usable(results)) <==> exists s :: s in results && s.ok && h in s.hints && !(h.height.Some? && h.height.value < 29_960)
  {
    if results != [] {
      var before, last := results[..|results| - 1], results[|results| - 1];
      UnionHolds(before, h);
      AboveFloorKeeps(last.hints, h);
      var kept := last.(hints := AboveFloor(last.hints));
      if last.ok && kept.hints != [] { assert (Usable(before) + [kept])[..|Usable(before)|] == Usable(before); }
      assert forall x :: x in results <==> x in before || x == last;
    }
  }

  // ---- The verdict ----

  predicate ClaimIs(s: Source, addr: string) { s.claim.addr.Some? && LowerCase(s.claim.addr.value) == addr }

  function Agreeing(usable: seq<Source>, addr: string): nat {
    if usable == [] then 0 else Agreeing(usable[..|usable| - 1], addr) + if ClaimIs(usable[|usable| - 1], addr) then 1 else 0
  }

  predicate Insufficient(s: Source) { s.sufficient == Some(false) }

  // Each source's own hints replayed alone: the replays that prove an address the wallet may serve.
  function Recovered(r: Rules, name: string, usable: seq<Source>, solo: nat -> Served): seq<Replay> {
    if usable == [] then []
    else
      var n := |usable| - 1;
      var rep := ReplayOf(r, name, usable[n].hints, solo(n));
      Recovered(r, name, usable[..n], solo) + if rep.Proved? && !rep.viaFill && !Insufficient(usable[n]) then [rep] else []
  }

  predicate AllAt(reps: seq<Replay>, addr: string) { forall x :: x in reps ==> x.Proved? && x.addr == addr }

  function VerdictOf(r: Rules, name: string, u: UnionFetch, served: Served, solo: nat -> Served): Verification {
    var n := |u.usable|;
    if n == 0 then Unverified(if u.existenceDisagree then NotRegistered else Unavailable, 0, false, false)
    else
      match ReplayOf(r, name, u.hints, served)
      case Lapsed(corroborated) =>
        if n >= 2 || corroborated then Unverified(LeaseLapsed, n, true, false) else Unverified(MaybeLapsed, n, false, false)
      case Refused(why) =>
        var found := Recovered(r, name, u.usable, solo);
        if n > 1 && found != [] && found[0].Proved? && AllAt(found, found[0].addr) then
          var win := found[0];
          Verified(win.addr, win.owner, win.nset, win.depth, n,
                   |found| < n || Agreeing(u.usable, win.addr) < n || u.existenceDisagree || u.belowFloor, |found| == 1, true, None)
        else Unverified(ReplayFailed(why), n, false, false)
      case Proved(owner, addr, nset, depth, viaFill) =>
        if viaFill then Unverified(FillAcquired, n, false, true)
        else if exists s :: s in u.usable && Insufficient(s) then Unverified(ScopeInsufficient, n, false, false)
        else Verified(addr, owner, nset, depth, n, Agreeing(u.usable, addr) < n || u.conflict || u.existenceDisagree || u.belowFloor,
                      false, false, Some(SortHintPairs(u.hints)))
  }

  method VerifyNameUnion(r: Rules, name: string, results: seq<Source>, served: Served, solo: nat -> Served) returns (v: Verification)
    ensures v == VerdictOf(r, name, FetchOf(results), served, solo)
  {
    hide FetchOf, ReplayOf, SortHintPairs;
    var u := FetchNameUnion(results);
    var n := |u.usable|;
    if n == 0 { return Unverified(if u.existenceDisagree then NotRegistered else Unavailable, 0, false, false); }
    var rep := ReplayName(r, name, u.hints, served);
    match rep {
      case Lapsed(corroborated) =>
        var confident := n >= 2 || corroborated;
        return Unverified(if confident then LeaseLapsed else MaybeLapsed, n, confident, false);
      case Refused(why) =>
        if n > 1 {
          var found, addrs := Recover(r, name, u.usable, solo);
          if found != [] && addrs == {found[0].addr} {
            var win := found[0];
            var agreed := CountAgreeing(u.usable, win.addr);
            return Verified(win.addr, win.owner, win.nset, win.depth, n,
                            |found| < n || agreed < n || u.existenceDisagree || u.belowFloor, |found| == 1, true, None);
          }
        }
        return Unverified(ReplayFailed(why), n, false, false);
      case Proved(owner, addr, nset, depth, viaFill) =>
        var servedInsufficient := exists s :: s in u.usable && Insufficient(s);
        if viaFill { return Unverified(FillAcquired, n, false, true); }
        if servedInsufficient { return Unverified(ScopeInsufficient, n, false, false); }
        var agreed := CountAgreeing(u.usable, addr);
        return Verified(addr, owner, nset, depth, n, agreed < n || u.conflict || u.existenceDisagree || u.belowFloor,
                        false, false, Some(SortHintPairs(u.hints)));
    }
  }

  method Recover(r: Rules, name: string, usable: seq<Source>, solo: nat -> Served) returns (found: seq<Replay>, addrs: set<string>)
    ensures found == Recovered(r, name, usable, solo) && forall x :: x in found ==> x.Proved?
    ensures found != [] ==> (addrs == {found[0].addr} <==> AllAt(found, found[0].addr))
  {
    hide ReplayOf;
    found, addrs := [], {};
    for i := 0 to |usable|
      invariant found == Recovered(r, name, usable[..i], solo)
      invariant forall x :: x in found ==> x.Proved?
      invariant forall a :: a in addrs <==> exists x: Replay :: x in found && x.Proved? && x.addr == a
    {
      assert usable[..i + 1][..i] == usable[..i];
      var rep := ReplayName(r, name, usable[i].hints, solo(i));
      if rep.Proved? && !rep.viaFill && !Insufficient(usable[i]) {
        AddrsGrow(found, addrs, rep);
        found, addrs := found + [rep], addrs + {rep.addr};
      }
    }
    assert usable[..|usable|] == usable;
    if found != [] {
      assert found[0] in found;
      if AllAt(found, found[0].addr) { assert forall a :: a in addrs ==> a == found[0].addr; }
      if addrs == {found[0].addr} { assert forall x :: x in found ==> x.addr in addrs; }
    }
  }

  lemma AddrsGrow(found: seq<Replay>, addrs: set<string>, rep: Replay)
    requires rep.Proved? && forall a :: a in addrs <==> exists x: Replay :: x in found && x.Proved? && x.addr == a
    ensures forall a :: a in addrs + {rep.addr} <==> exists x: Replay :: x in found + [rep] && x.Proved? && x.addr == a
  {
    assert forall x :: x in found + [rep] <==> x in found || x == rep;
  }

  method CountAgreeing(usable: seq<Source>, addr: string) returns (agreed: nat)
    ensures agreed == Agreeing(usable, addr)
  {
    agreed := 0;
    for i := 0 to |usable|
      invariant agreed == Agreeing(usable[..i], addr)
    {
      assert usable[..i + 1][..i] == usable[..i];
      if ClaimIs(usable[i], addr) { agreed := agreed + 1; }
    }
    assert usable[..|usable|] == usable;
  }

  // A source whose own hints, replayed alone, prove an address the wallet may use.
  predicate Recovers(r: Rules, name: string, usable: seq<Source>, solo: nat -> Served, i: nat) {
    && i < |usable| && usable[i].sufficient != Some(false)
    && var rep := ReplayOf(r, name, usable[i].hints, solo(i)); rep.Proved? && !rep.viaFill
  }

  function SoloAddr(r: Rules, name: string, usable: seq<Source>, solo: nat -> Served, i: nat): string
    requires Recovers(r, name, usable, solo, i)
  {
    ReplayOf(r, name, usable[i].hints, solo(i)).addr
  }

  // No two sources recover different addresses.
  ghost predicate OneAddr(r: Rules, name: string, usable: seq<Source>, solo: nat -> Served) {
    forall i: nat, j: nat :: Recovers(r, name, usable, solo, i) && Recovers(r, name, usable, solo, j) ==> SoloAddr(r, name, usable, solo, i) == SoloAddr(r, name, usable, solo, j)
  }

  // When the union is verified: its replay proves an address no fill acquired, from sources none of which says its records
  // are not enough; or it is refused, two sources answer, some recover an address, and no two recover different ones.
  lemma {:induction false} VerifiedIff(r: Rules, name: string, u: UnionFetch, served: Served, solo: nat -> Served)
    ensures var v, rep := VerdictOf(r, name, u, served, solo), ReplayOf(r, name, u.hints, served);
      v.Verified? ==
        (u.usable != []
         && if rep.Proved? then !rep.viaFill && forall s :: s in u.usable ==> s.sufficient != Some(false)
            else rep.Refused? && |u.usable| >= 2 && (exists i: nat :: Recovers(r, name, u.usable, solo, i)) && OneAddr(r, name, u.usable, solo))
  {
    hide ReplayOf, Agreeing, SortHintPairs, Recovered, Recovers, OneAddr, AllAt;
    if u.usable != [] && ReplayOf(r, name, u.hints, served).Refused? { RecoveredAgree(r, name, u.usable, solo); }
  }

  lemma {:induction false} RecoveredAgree(r: Rules, name: string, usable: seq<Source>, solo: nat -> Served)
    ensures var found := Recovered(r, name, usable, solo);
      && (found != [] <==> exists i: nat :: Recovers(r, name, usable, solo, i))
      && (found != [] ==> found[0].Proved? && (AllAt(found, found[0].addr) <==> OneAddr(r, name, usable, solo)))
  {
    hide ReplayOf, Recovered;
    var found := Recovered(r, name, usable, solo);
    forall i: nat | Recovers(r, name, usable, solo, i) ensures ReplayOf(r, name, usable[i].hints, solo(i)) in found { IsRecovered(r, name, usable, solo, i); }
    if found != [] {
      assert found[0] in found;
      var k := RecoveredIs(r, name, usable, solo, found[0]);
      assert Recovers(r, name, usable, solo, k);
      if OneAddr(r, name, usable, solo) {
        forall x | x in found ensures x.Proved? && x.addr == found[0].addr {
          var i := RecoveredIs(r, name, usable, solo, x);
          assert SoloAddr(r, name, usable, solo, i) == SoloAddr(r, name, usable, solo, k);
        }
      }
      if AllAt(found, found[0].addr) {
        forall i: nat, j: nat | Recovers(r, name, usable, solo, i) && Recovers(r, name, usable, solo, j) ensures SoloAddr(r, name, usable, solo, i) == SoloAddr(r, name, usable, solo, j) {
          assert ReplayOf(r, name, usable[i].hints, solo(i)) in found && ReplayOf(r, name, usable[j].hints, solo(j)) in found;
        }
      }
    }
  }

  lemma {:induction false} IsRecovered(r: Rules, name: string, usable: seq<Source>, solo: nat -> Served, i: nat)
    requires i < |usable| && usable[i].sufficient != Some(false)
    requires var rep := ReplayOf(r, name, usable[i].hints, solo(i)); rep.Proved? && !rep.viaFill
    ensures ReplayOf(r, name, usable[i].hints, solo(i)) in Recovered(r, name, usable, solo)
  {
    hide ReplayOf;
    if i < |usable| - 1 { IsRecovered(r, name, usable[..|usable| - 1], solo, i); }
  }

  lemma {:induction false} RecoveredCount(r: Rules, name: string, usable: seq<Source>, solo: nat -> Served) returns (who: seq<nat>)
    ensures |who| == |Recovered(r, name, usable, solo)| && Increasing(who)
    ensures forall i: nat :: i in who <==> Recovers(r, name, usable, solo, i)
  {
    hide ReplayOf;
    who := [];
    if usable != [] {
      var n := |usable| - 1;
      var before := RecoveredCount(r, name, usable[..n], solo);
      who := before;
      assert forall i: nat :: i < n ==> (Recovers(r, name, usable, solo, i) <==> Recovers(r, name, usable[..n], solo, i));
      forall i | i in before ensures i < n { assert Recovers(r, name, usable[..n], solo, i); }
      if Recovers(r, name, usable, solo, n) {
        who := before + [n];
        forall a, b | 0 <= a < b < |who| ensures who[a] < who[b] { assert before[a] in before; }
      }
    }
  }

  ghost predicate Increasing(who: seq<nat>) { forall a, b :: 0 <= a < b < |who| ==> who[a] < who[b] }

  lemma {:induction false} AgreeingAll(usable: seq<Source>, addr: string)
    ensures Agreeing(usable, addr) <= |usable|
    ensures Agreeing(usable, addr) == |usable| <==> forall s :: s in usable ==> s.claim.addr.Some? && LowerCase(s.claim.addr.value) == addr
  {
    if usable != [] {
      AgreeingAll(usable[..|usable| - 1], addr);
      assert forall s :: s in usable <==> s in usable[..|usable| - 1] || s == usable[|usable| - 1];
    }
  }

  // What a verified answer carries: its proof's owner and depth, and the flags a send shows. Sources disagree when one
  // claims another address or none, does not know the name, serves a hint below the floor, or, as the case is, conflicts
  // on a height or does not recover; one is the sole source when it alone recovers.
  lemma {:induction false} VerifiedCarries(r: Rules, name: string, u: UnionFetch, served: Served, solo: nat -> Served)
    requires VerdictOf(r, name, u, served, solo).Verified?
    ensures var v, rep := VerdictOf(r, name, u, served, solo), ReplayOf(r, name, u.hints, served);
      && v.sources == |u.usable| && (v.recovered <==> rep.Refused?)
      && (!v.recovered ==> v.addr == rep.addr && v.owner == rep.owner && v.nset == rep.nset && v.depth == rep.depth && v.pairs == Some(SortHintPairs(u.hints)))
      && (v.recovered ==> v.pairs.None? && exists i: nat :: Recovers(r, name, u.usable, solo, i) && CarriesSolo(v, ReplayOf(r, name, u.usable[i].hints, solo(i))))
      && (v.disagree <==> u.existenceDisagree || u.belowFloor || (exists s :: s in u.usable && !(s.claim.addr.Some? && LowerCase(s.claim.addr.value) == v.addr))
                          || if v.recovered then exists i: nat :: i < |u.usable| && !Recovers(r, name, u.usable, solo, i) else u.conflict)
      && (v.sole <==> v.recovered && forall i: nat, j: nat :: Recovers(r, name, u.usable, solo, i) && Recovers(r, name, u.usable, solo, j) ==> i == j)
  {
    hide ReplayOf, SortHintPairs, Agreeing, Recovered;
    var v := VerdictOf(r, name, u, served, solo);
    AgreeingAll(u.usable, v.addr);
    if v.recovered {
      var found := Recovered(r, name, u.usable, solo);
      var who := RecoveredCount(r, name, u.usable, solo);
      assert found[0] in found;
      var i := RecoveredIs(r, name, u.usable, solo, found[0]);
      assert Recovers(r, name, u.usable, solo, i);
      assert forall k: nat :: k in who <==> Recovers(r, name, u.usable, solo, k);
      AllOrNot(who, |u.usable|);
      OneOrNot(who);
    }
  }

  ghost predicate CarriesSolo(v: Verification, rep: Replay) {
    v.Verified? && rep.Proved? && v.addr == rep.addr && v.owner == rep.owner && v.nset == rep.nset && v.depth == rep.depth
  }

  // Increasing indices below n are all of them exactly when there are n.
  lemma {:induction false} AllOrNot(who: seq<nat>, n: nat)
    requires Increasing(who) && forall i :: i in who ==> i < n
    ensures |who| <= n && (|who| == n <==> forall i: nat :: i < n ==> i in who)
  {
    if who != [] {
      var init, last := who[..|who| - 1], who[|who| - 1];
      assert last in who && who == init + [last];
      forall i | i in init ensures i < last { var a :| 0 <= a < |init| && init[a] == i; assert who[a] == i; }
      AllOrNot(init, last);
      if |who| < n && forall i: nat :: i < n ==> i in who {
        assert n - 1 in who;
        assert last == n - 1;
        forall i: nat | i < last ensures i in init { assert i in who; }
      }
    } else if n > 0 {
      assert 0 !in who;
    }
  }

  lemma OneOrNot(who: seq<nat>)
    requires who != [] && Increasing(who)
    ensures |who| == 1 <==> forall i, j :: i in who && j in who ==> i == j
  {
    if |who| > 1 { assert who[0] in who && who[1] in who && who[0] < who[1]; }
  }

  // Why an answer is not verified; a confident lapse and a fill's acquisition are named as such.
  lemma {:induction false} UnverifiedBecause(r: Rules, name: string, u: UnionFetch, served: Served, solo: nat -> Served)
    requires VerdictOf(r, name, u, served, solo).Unverified?
    ensures var v, rep := VerdictOf(r, name, u, served, solo), ReplayOf(r, name, u.hints, served);
      && v.sources == |u.usable| && (v.lapsed <==> v.reason == LeaseLapsed) && (v.viaFill <==> v.reason == FillAcquired)
      && (v.reason == NotRegistered <==> u.usable == [] && u.existenceDisagree)
      && (v.reason == Unavailable <==> u.usable == [] && !u.existenceDisagree)
      && (v.reason == LeaseLapsed <==> u.usable != [] && rep.Lapsed? && (|u.usable| >= 2 || rep.corroborated))
      && (v.reason == MaybeLapsed <==> |u.usable| == 1 && rep.Lapsed? && !rep.corroborated)
      && (v.reason == FillAcquired <==> u.usable != [] && rep.Proved? && rep.viaFill)
      && (v.reason == ScopeInsufficient <==> u.usable != [] && rep.Proved? && !rep.viaFill)
      && (v.reason.ReplayFailed? <==> u.usable != [] && rep.Refused?) && (v.reason.ReplayFailed? ==> v.reason.why == rep.why)
  {
    hide ReplayOf, SortHintPairs, Agreeing, Recovered;
  }

  // ---- What a verified answer means ----

  ghost predicate Proof(r: Rules, chain: int -> Blocks.Body, name: string, hints: seq<Hint>, tip: int, addr: string) {
    PairsOf(hints).Some? && Backed(r, chain, name, PairsOf(hints).value, tip, addr, false)
  }

  lemma {:induction false} RecoveredIs(r: Rules, name: string, usable: seq<Source>, solo: nat -> Served, x: Replay) returns (i: nat)
    requires x in Recovered(r, name, usable, solo)
    ensures i < |usable| && x == ReplayOf(r, name, usable[i].hints, solo(i)) && x.Proved? && !x.viaFill && usable[i].sufficient != Some(false)
  {
    hide ReplayOf;
    var n := |usable| - 1;
    if x in Recovered(r, name, usable[..n], solo) { i := RecoveredIs(r, name, usable[..n], solo, x); } else { i := n; }
  }

  // The address is proven by the replay of the union, at the tip that replay read.
  ghost predicate UnionProof(r: Rules, name: string, u: UnionFetch, served: Served, chain: int -> Blocks.Body, addr: string) {
    served.prep.Some? && Proof(r, chain, name, u.hints, LapseTip(served.prep.value), addr)
  }

  // It is proven by the replay of one source's hints, at the tip that replay read and on the chain it saw.
  ghost predicate SoloProof(r: Rules, name: string, u: UnionFetch, solo: nat -> Served, chains: nat -> (int -> Blocks.Body), addr: string, i: nat) {
    i < |u.usable| && solo(i).prep.Some? && Proof(r, chains(i), name, u.usable[i].hints, LapseTip(solo(i).prep.value), addr)
  }

  // Each replay syncs anew, so the headers may be of another chain at each.
  ghost predicate AllRooted(served: Served, chain: int -> Blocks.Body, solo: nat -> Served, chains: nat -> (int -> Blocks.Body)) {
    Rooted(served, chain) && forall i: nat :: Rooted(solo(i), chains(i))
  }

  // Whatever the sources, the node and the proxy serve, a verified address is the one the resolver finds, at the tip the
  // replay read, from records the chain holds, each spending a coin of its author, neither reserved, lapsed nor acquired
  // by a fill: the union's records, or, when the union failed, one source's own.
  lemma {:induction false} VerifiedIsProven(r: Rules, name: string, u: UnionFetch, served: Served, solo: nat -> Served,
                                            chain: int -> Blocks.Body, chains: nat -> (int -> Blocks.Body))
    requires AllRooted(served, chain, solo, chains)
    requires VerdictOf(r, name, u, served, solo).Verified?
    ensures var v := VerdictOf(r, name, u, served, solo);
      if v.recovered then exists i: nat :: SoloProof(r, name, u, solo, chains, v.addr, i) else UnionProof(r, name, u, served, chain, v.addr)
  {
    hide ReplayOf, SortHintPairs, Backed, PairsOf, MaxHeight, Agreeing, Rooted;
    var v := VerdictOf(r, name, u, served, solo);
    if v.recovered {
      var win := Recovered(r, name, u.usable, solo)[0];
      var i := RecoveredIs(r, name, u.usable, solo, win);
      ReplayIsBacked(r, name, u.usable[i].hints, solo(i), chains(i));
      assert SoloProof(r, name, u, solo, chains, v.addr, i);
    } else {
      ReplayIsBacked(r, name, u.hints, served, chain);
    }
  }

  // The records' lease has run out, seen twice: by two sources, or at an earlier session's tip too.
  ghost predicate LapsedTwice(r: Rules, name: string, u: UnionFetch, served: Served, chain: int -> Blocks.Body) {
    && PairsOf(u.hints).Some? && served.prep.Some?
    && var events := Evidence(r, chain, PairsOf(u.hints).value);
    && ExpiredAt(r, name, events, LapseTip(served.prep.value))
    && (|u.usable| >= 2 || (FloorOf(served.prep.value) > 0 && ExpiredAt(r, name, events, FloorOf(served.prep.value))))
  }

  // A lapse that refuses a send is the chain's own and corroborated.
  lemma {:induction false} LapseIsCorroborated(r: Rules, name: string, u: UnionFetch, served: Served, solo: nat -> Served, chain: int -> Blocks.Body)
    requires Rooted(served, chain)
    requires VerdictOf(r, name, u, served, solo).Unverified? && VerdictOf(r, name, u, served, solo).lapsed
    ensures LapsedTwice(r, name, u, served, chain)
  {
    hide ReplayOf, SortHintPairs, PairsOf, MaxHeight, Agreeing, Rooted, Evidence;
    LapseIsBacked(r, name, u.hints, served, chain);
  }

  // A clean verdict rests on the union, at the tip its replay read.
  lemma {:induction false} CleanIsProven(r: Rules, name: string, u: UnionFetch, served: Served, solo: nat -> Served, chain: int -> Blocks.Body)
    requires Rooted(served, chain)
    requires VerdictOf(r, name, u, served, solo).Verified? && !VerdictOf(r, name, u, served, solo).recovered
    ensures served.prep.Some?
    ensures var v := VerdictOf(r, name, u, served, solo);
      v.pairs == Some(SortHintPairs(u.hints)) && Proof(r, chain, name, u.hints, LapseTip(served.prep.value), v.addr)
  {
    hide ReplayOf, SortHintPairs, Backed, PairsOf, MaxHeight, Agreeing, Rooted;
    ReplayIsBacked(r, name, u.hints, served, chain);
  }

  // Sources that serve a name's whole history, each of its records truly served, verify it: the union answers with the
  // address the chain's records give, unless they lapsed, are reserved, or came by a fill.
  lemma {:induction false} TrueNameVerifies(r: Rules, name: string, u: UnionFetch, served: Served, solo: nat -> Served, chain: int -> Blocks.Body)
    requires u.usable != [] && (forall s :: s in u.usable ==> s.sufficient != Some(false))
    requires 1 <= |u.hints| <= 256 && PairsOf(u.hints).Some? && served.prep.Some? && Rooted(served, chain)
    requires forall p :: p in PairsOf(u.hints).value ==> p.height <= served.prep.value.verifiedTip && ServedTrue(r, served, chain, p)
    requires var names := r.resolve(Evidence(r, chain, PairsOf(u.hints).value), LapseTip(served.prep.value));
      name in names && !names[name].expired && !names[name].pending && !names[name].viaFill
    ensures var v := VerdictOf(r, name, u, served, solo);
      v.Verified? && !v.recovered && UnionProof(r, name, u, served, chain, v.addr)
  {
    hide ReplayOf, PairsOf, Evidence, ServedTrue, Rooted, SortHintPairs, Agreeing, Recovered, Backed;
    TrueReplayAnswers(r, name, u.hints, served, chain);
    ReplayIsBacked(r, name, u.hints, served, chain);
    assert ReplayOf(r, name, u.hints, served).viaFill == false by { BackedViaFill(r, chain, name, PairsOf(u.hints).value, LapseTip(served.prep.value), ReplayOf(r, name, u.hints, served).addr, ReplayOf(r, name, u.hints, served).viaFill); }
    VerifiedIff(r, name, u, served, solo);
  }

  lemma BackedViaFill(r: Rules, chain: int -> Blocks.Body, name: string, pairs: seq<HintPair>, tip: int, addr: string, viaFill: bool)
    requires Backed(r, chain, name, pairs, tip, addr, viaFill)
    ensures name in r.resolve(Evidence(r, chain, pairs), tip) && viaFill == r.resolve(Evidence(r, chain, pairs), tip)[name].viaFill
  {
  }

  // ---- What a send is told ----

  // A resolver's reply: none or an error, a 404, a body that does not parse, or an answer.
  datatype Reply = Failed | NotFound | Garbled | Answered(addr: Option<string>, lapsed: bool)

  datatype Refusal = NotAName | Unknown | LookupFailed | LapseConfirmed | LapseUnconfirmed | NoAddress

  datatype Resolution = Refuse(why: Refusal) | Send(addr: string, verified: bool, disagree: bool, sole: bool, viaFill: bool)

  predicate IsLowerHex(c: char) { '0' <= c <= '9' || 'a' <= c <= 'f' }

  predicate IsAddress(a: string) { |a| == 42 && a[0] == '0' && a[1] == 'x' && forall i :: 2 <= i < 42 ==> IsLowerHex(a[i]) }

  // An address is 0x and forty lower-case hex digits.
  lemma IsAddressIff(a: string)
    ensures IsAddress(a) <==> |a| == 42 && a[..2] == "0x" && forall i :: 2 <= i < 42 ==> a[i] in "0123456789abcdef"
  {
    if |a| == 42 {
      assert a[..2] == [a[0], a[1]];
      forall i | 2 <= i < 42 ensures IsLowerHex(a[i]) <==> a[i] in "0123456789abcdef" { HexDigits(a[i]); }
    }
  }

  lemma HexDigits(c: char)
    ensures IsLowerHex(c) <==> c in "0123456789abcdef"
  {
    var digits := "0123456789abcdef";
    if '0' <= c <= '9' { assert digits[c as int - 48] == c; }
    if 'a' <= c <= 'f' { assert digits[c as int - 87] == c; }
  }

  // The reply that counts: the primary's, or the second source's positive answer when the primary failed.
  function Heard(primary: Reply, fallback: Reply): Reply {
    if primary.Failed? && (fallback.Answered? || fallback.Garbled?) then fallback else primary
  }

  predicate Serves(v: Option<Verification>) { v.Some? && v.value.Verified? && v.value.addr != [] }

  predicate ProvesLapse(v: Option<Verification>) { v.Some? && v.value.Unverified? && v.value.lapsed }

  // `v` is the chain's verdict, None when verifying threw.
  method ResolveName(plain: bool, primary: Reply, fallback: Reply, v: Option<Verification>) returns (res: Resolution)
    ensures res.Send? && res.verified ==> Serves(v) && res.addr == v.value.addr && !res.viaFill
    ensures res.Send? && !res.verified ==> !Serves(v) && !ProvesLapse(v)
    ensures res.Send? && !res.verified ==> Heard(primary, fallback).Answered? && Heard(primary, fallback).addr.Some?
                                           && res.addr == LowerCase(Heard(primary, fallback).addr.value) && IsAddress(res.addr)
    ensures ProvesLapse(v) ==> res.Refuse?
    ensures var heard := if primary == Failed && fallback.Answered? then fallback else primary;
      var told := plain && heard.Answered?;
      var payable := told && heard.addr.Some? && IsAddress(LowerCase(heard.addr.value));
      && (res == Refuse(NotAName) <==> !plain)
      && (res == Refuse(Unknown) <==> plain && primary == NotFound)
      && (res == Refuse(LookupFailed) <==> plain && primary != NotFound && !heard.Answered?)
      && (res == Refuse(NoAddress) <==> told && !heard.lapsed && !payable)
      && (res == Refuse(LapseConfirmed) <==> told && (heard.lapsed || payable) && ProvesLapse(v))
      && (res == Refuse(LapseUnconfirmed) <==> told && heard.lapsed && !Serves(v) && !ProvesLapse(v))
      && (res.Send? && res.verified <==> told && (heard.lapsed || payable) && Serves(v))
    ensures res.Send? ==> if res.verified then res.disagree == v.value.disagree && res.sole == v.value.sole
                          else !res.disagree && !res.sole && (res.viaFill <==> v.Some? && v.value.Unverified? && v.value.viaFill)
  {
    if !plain { return Refuse(NotAName); }
    var r := primary;
    if r.NotFound? { return Refuse(Unknown); }
    if r.Failed? {
      if fallback.Answered? || fallback.Garbled? { r := fallback; }
    }
    if !r.Answered? { return Refuse(LookupFailed); }
    if r.lapsed {
      if Serves(v) { return Send(v.value.addr, true, v.value.disagree, v.value.sole, false); }
      return Refuse(if ProvesLapse(v) then LapseConfirmed else LapseUnconfirmed);
    }
    if r.addr.None? || !IsAddress(LowerCase(r.addr.value)) { return Refuse(NoAddress); }
    if Serves(v) { return Send(v.value.addr, true, v.value.disagree, v.value.sole, false); }
    if ProvesLapse(v) { return Refuse(LapseConfirmed); }
    res := Send(LowerCase(r.addr.value), false, false, false, v.Some? && v.value.Unverified? && v.value.viaFill);
  }

  // What one resolution is served: the primary's reply and the fallback's, the name histories, and the chain data of the
  // union's replay and of each source's own.
  datatype Answers = Answers(plain: bool, primary: Reply, fallback: Reply, results: seq<Source>, served: Served, solo: nat -> Served)

  // A send's whole resolution: what it calls verified is proven, and a lapse it calls confirmed is the chain's.
  method ResolveSend(r: Rules, name: string, a: Answers, ghost chain: int -> Blocks.Body, ghost chains: nat -> (int -> Blocks.Body))
    returns (res: Resolution)
    requires AllRooted(a.served, chain, a.solo, chains)
    ensures res.Send? && res.verified ==>
      var u := FetchOf(a.results);
      UnionProof(r, name, u, a.served, chain, res.addr) || exists i: nat :: SoloProof(r, name, u, a.solo, chains, res.addr, i)
    ensures res == Refuse(LapseConfirmed) ==> LapsedTwice(r, name, FetchOf(a.results), a.served, chain)
    ensures var heard := if a.primary == Failed && a.fallback.Answered? then a.fallback else a.primary;
      var v := VerdictOf(r, name, FetchOf(a.results), a.served, a.solo);
      a.plain && heard.Answered? && (heard.lapsed || (heard.addr.Some? && IsAddress(LowerCase(heard.addr.value)))) && v.Verified? && v.addr != [] ==>
        res == Send(v.addr, true, v.disagree, v.sole, false)
  {
    hide FetchOf, VerdictOf, UnionProof, SoloProof, LapsedTwice, Rooted, IsAddress;
    var v := VerifyNameUnion(r, name, a.results, a.served, a.solo);
    if v.Verified? {
      VerifiedIsProven(r, name, FetchOf(a.results), a.served, a.solo, chain, chains);
    } else if v.lapsed {
      LapseIsCorroborated(r, name, FetchOf(a.results), a.served, a.solo, chain);
    }
    res := ResolveName(a.plain, a.primary, a.fallback, Some(v));
  }

  // ---- The wallet's name cache ----

  // Where an entry comes from: the hints and view it was proven on, at which tip, and the view its hashes were read on.
  datatype Origin = Origin(hints: seq<Hint>, view: View, tip: int, later: View)

  // What a Confirm's fast path is served.
  datatype Refetch = Refetch(results: seq<Source>, tip: Option<int>, now: int, hashAt: Option<HashAt>)

  class NameHints {
    const rules: Rules
    var entries: map<string, Entry>     // nameHints
    var gen: nat                        // spvGen
    ghost var origins: map<string, Origin>

    // Every entry was proven on one view, and its hashes read on one.
    ghost predicate Valid() reads this { AllHold(rules, entries, origins) }

    static ghost predicate AllHold(r: Rules, entries: map<string, Entry>, origins: map<string, Origin>) {
      forall name :: name in entries ==> name in origins && Holds(r, name, entries[name], origins[name])
    }

    static ghost predicate Holds(r: Rules, name: string, e: Entry, o: Origin) {
      ProvenOn(r, name, e, o.hints, o.view, o.tip) && HashedOn(e, o.later)
    }

    constructor (r: Rules)
      ensures Valid() && entries == map[] && rules == r
    {
      rules, entries, gen, origins := r, map[], 0, map[];
    }

    // An endpoint change drops the cache, and whatever was being verified against the old endpoints caches nothing.
    method EndpointChanged()
      requires Valid()
      modifies this
      ensures Valid() && entries == map[] && gen == old(gen) + 1
    {
      entries, gen := map[], gen + 1;
    }

    // What may be cached: an answer the union's own replay proved, with a hash read at every height, and an epoch.
    static ghost predicate Cacheable(v: Verification, hashAt: Option<HashAt>, tip: Option<int>) {
      && v.Verified? && v.addr != [] && !v.recovered && v.pairs.Some? && v.pairs.value != [] && hashAt.Some? && tip.Some?
      && forall p :: p in v.pairs.value ==> hashAt.value(p.height).Some? && hashAt.value(p.height).value != []
    }

    // rememberHintSet: the verdict was proven on `view`; its header hashes are read afterwards, on `later`.
    method Remember(name: string, u: UnionFetch, served: Served, solo: nat -> Served, hashAt: Option<HashAt>,
                    tip: Option<int>, now: int, startedGen: nat, v: Verification, ghost view: View, ghost later: View)
      requires Valid() && v == VerdictOf(rules, name, u, served, solo) && Rooted(served, view.chain)
      requires hashAt.Some? ==> hashAt.value == later.hash
      modifies `entries, `origins
      ensures Valid()
      ensures !(Cacheable(v, hashAt, tip) && old(gen) == startedGen) ==> entries == old(entries) && origins == old(origins)
      ensures Cacheable(v, hashAt, tip) && old(gen) == startedGen ==>
        && name in entries && entries == old(entries)[name := entries[name]] && entries[name].pairs == v.pairs.value
        && entries[name].addr == v.addr && entries[name].ts == now && entries[name].epoch == tip.value / 30
        && entries[name].hashes == map h | h in HeightSet(v.pairs.value) :: LowerCase(HashThere(hashAt.value, h))
      ensures (entries == old(entries) && origins == old(origins))
        || (name in entries && v.Verified? && !v.recovered && gen == startedGen && tip.Some? && served.prep.Some?
            && entries == old(entries)[name := entries[name]]
            && entries[name].addr == v.addr && entries[name].ts == now && entries[name].epoch == tip.value / EPOCH_LEN
            && origins == old(origins)[name := Origin(u.hints, view, LapseTip(served.prep.value), later)])
    {
      hide VerdictOf, Rooted, Cacheable, AllHold, Holds;
      var e := EntryFor(name, u, served, solo, hashAt, tip, now, v, view, later);
      if e.None? || startedGen != gen { return; }
      ghost var o := Origin(u.hints, view, LapseTip(served.prep.value), later);
      Files(name, e.value, o);
      entries, origins := entries[name := e.value], origins[name := o];
    }

    // The entry for a verdict worth caching.
    method EntryFor(name: string, u: UnionFetch, ghost served: Served, ghost solo: nat -> Served, hashAt: Option<HashAt>, tip: Option<int>, now: int, v: Verification,
                    ghost view: View, ghost later: View)
      returns (e: Option<Entry>)
      requires v == VerdictOf(rules, name, u, served, solo) && Rooted(served, view.chain)
      requires hashAt.Some? ==> hashAt.value == later.hash
      ensures e.Some? <==> Cacheable(v, hashAt, tip)
      ensures e.Some? ==> v.Verified? && !v.recovered && v.pairs.Some? && hashAt.Some? && tip.Some? && served.prep.Some?
      ensures e.Some? ==> e.value == Entry(v.pairs.value, map h | h in HeightSet(v.pairs.value) :: LowerCase(HashThere(hashAt.value, h)), v.addr, now, tip.value / 30)
      ensures e.Some? ==> Holds(rules, name, e.value, Origin(u.hints, view, LapseTip(served.prep.value), later))
    {
      hide VerdictOf, Backed, Rooted, SortHintPairs, PairsOf, HeightSet, HashThere;
      if v.Verified? { SoleRecovers(name, u, served, solo); }
      if !v.Verified? || v.addr == [] || v.recovered || v.sole { return None; }
      CleanIsProven(rules, name, u, served, solo, view.chain);
      var pairs := v.pairs.value;
      if pairs == [] || hashAt.None? { return None; }
      var hashes := ReadHashes(pairs, hashAt.value, later);
      if hashes.None? || tip.None? { return None; }
      e := Some(Entry(pairs, hashes.value, v.addr, now, tip.value / EPOCH_LEN));
    }

    lemma SoleRecovers(name: string, u: UnionFetch, served: Served, solo: nat -> Served)
      requires VerdictOf(rules, name, u, served, solo).Verified?
      ensures VerdictOf(rules, name, u, served, solo).sole ==> VerdictOf(rules, name, u, served, solo).recovered
    {
      VerifiedCarries(rules, name, u, served, solo);
      hide VerdictOf;
    }

    // One more entry that holds keeps the cache valid.
    lemma Files(name: string, e: Entry, o: Origin)
      requires Valid() && Holds(rules, name, e, o)
      ensures AllHold(rules, entries[name := e], origins[name := o])
    {
      hide Holds;
    }

    // The header hash at each pair's height, or None when one cannot be read.
    static method ReadHashes(pairs: seq<HintPair>, hashAt: HashAt, ghost view: View) returns (out: Option<map<int, string>>)
      requires hashAt == view.hash
      ensures out.Some? ==> Hashed(out.value, pairs, view) && out.value == map h | h in HeightSet(pairs) :: LowerCase(HashThere(hashAt, h))
      ensures out.Some? <==> forall p :: p in pairs ==> hashAt(p.height).Some? && hashAt(p.height).value != []
    {
      var hashes: map<int, string> := map[];
      for i := 0 to |pairs|
        invariant Hashed(hashes, pairs[..i], view) && hashes.Keys == HeightSet(pairs[..i])
        invariant forall h :: h in hashes ==> hashes[h] == LowerCase(HashThere(hashAt, h))
      {
        assert pairs[..i + 1] == pairs[..i] + [pairs[i]];
        var h := hashAt(pairs[i].height);
        if h.None? || h.value == [] { assert pairs[i] in pairs; return None; }
        HeightSetGrows(pairs[..i], pairs[i]);
        HashedGrows(hashes, pairs[..i], pairs[i], view);
        hashes := hashes[pairs[i].height := LowerCase(h.value)];
      }
      assert pairs[..|pairs|] == pairs;
      out := Some(hashes);
    }

    static function HeightSet(pairs: seq<HintPair>): set<int> { set p | p in pairs :: p.height }

    static function HashThere(hashAt: HashAt, h: int): string { if hashAt(h).Some? then hashAt(h).value else "" }

    static lemma HeightSetGrows(pairs: seq<HintPair>, p: HintPair)
      ensures HeightSet(pairs + [p]) == HeightSet(pairs) + {p.height}
    {
      assert forall x :: x in pairs + [p] <==> x in pairs || x == p;
    }

    static ghost predicate Hashed(hashes: map<int, string>, pairs: seq<HintPair>, v: View) {
      forall p :: p in pairs ==>
        v.hash(p.height).Some? && v.hash(p.height).value != [] && p.height in hashes && hashes[p.height] == LowerCase(v.hash(p.height).value)
    }

    static lemma HashedGrows(hashes: map<int, string>, pairs: seq<HintPair>, p: HintPair, v: View)
      requires Hashed(hashes, pairs, v) && v.hash(p.height).Some? && v.hash(p.height).value != []
      ensures Hashed(hashes[p.height := LowerCase(v.hash(p.height).value)], pairs + [p], v)
    {
    }

    // tryConfirmHintSet, up to its first await: the entry and the generation it starts under.
    method BeginConfirm(name: string) returns (cache: Option<Entry>, startedGen: nat, ghost o: Origin)
      requires Valid()
      ensures cache.Some? ==> Holds(rules, name, cache.value, o)
    {
      startedGen := gen;
      if name in entries {
        o := origins[name];
        cache := Some(entries[name]);
      } else {
        o := Origin([], View(_ => [], _ => None), 0, View(_ => [], _ => None));
        cache := None;
      }
    }

    // The guards under which a skipped proof is as good as a new one: no header of its records moved before its hash was
    // read, and the epoch it is cached under is the proof's.
    ghost predicate Guarded(e: Entry, o: Origin, tip: int) {
      ByEpoch(rules) && o.tip >= V25_HEIGHT && tip >= V25_HEIGHT && Unmoved(e, o.view, o.later) && SameLease(e, o.tip)
    }

    // After its awaits: the headers are now those of `w`.
    method FinishConfirm(name: string, cache: Option<Entry>, startedGen: nat, ghost o: Origin, f: Refetch, ghost w: View)
      returns (res: Option<Resolution>)
      requires cache.Some? ==> Holds(rules, name, cache.value, o)
      requires NamesEveryHash(rules) && HashFixes(o.view, o.later) && HashFixes(o.later, w) && (f.hashAt.Some? ==> f.hashAt.value == w.hash)
      ensures res.Some? <==>
        var u := FetchOf(f.results);
        && cache.Some? && gen == startedGen && u.usable != [] && f.hashAt.Some? && f.tip.Some?
        && f.tip.value / 30 == cache.value.epoch && f.now - cache.value.ts <= 120_000 && cache.value.pairs == SortHintPairs(u.hints)
        && (forall s :: s in u.usable ==> !s.claim.lapsed)
        && (forall p :: p in cache.value.pairs ==>
              && f.hashAt.value(p.height).Some? && f.hashAt.value(p.height).value != [] && p.height in cache.value.hashes && cache.value.hashes[p.height] != []
              && LowerCase(f.hashAt.value(p.height).value) == LowerCase(cache.value.hashes[p.height]))
      ensures res.Some? ==>
        var u := FetchOf(f.results);
        && res.value.Send? && !res.value.sole && !res.value.viaFill
        && (res.value.disagree <==> u.conflict || u.existenceDisagree || u.belowFloor || exists s :: s in u.usable && !(s.claim.addr.Some? && LowerCase(s.claim.addr.value) == LowerCase(cache.value.addr)))
      ensures res.Some? ==>
        && cache.Some? && res.value.Send? && res.value.verified && res.value.addr == cache.value.addr && gen == startedGen
        && f.tip.Some? && f.now - cache.value.ts <= HINTSET_TTL_MS
        && (forall s :: s in FetchOf(f.results).usable ==> !s.claim.lapsed)
        && multiset(ValidPairs(FetchOf(f.results).hints)) == multiset(ValidPairs(o.hints))
        && (Guarded(cache.value, o, f.tip.value) ==>
              Backed(rules, w.chain, name, ValidPairs(FetchOf(f.results).hints), f.tip.value, res.value.addr, false))
    {
      hide FetchOf, Skips, Backed, SortHintPairs, ValidPairs, ByEpoch, Unmoved, HashFixes, NamesEveryHash, HashedOn;
      if cache.None? { return None; }
      var u := FetchNameUnion(f.results);
      if u.usable == [] { return None; }
      var claims := seq(|u.usable|, i requires 0 <= i < |u.usable| => u.usable[i].claim);
      var pairs := SortHintPairs(u.hints);
      var flagged := u.conflict || u.existenceDisagree || u.belowFloor;
      var epoch := if f.tip.None? then None else Some(f.tip.value / EPOCH_LEN);
      var skip, disagree, sources := EvaluateHintSetSkip(cache, pairs, claims, flagged, f.now, epoch, f.hashAt);
      SkipsIff(cache.value, pairs, u.usable, claims, f.now, epoch, f.hashAt);
      if !skip || gen != startedGen { return None; }
      SkipGates(cache.value, pairs, u.usable, claims, f.now, epoch, w.hash);
      SkipMeansUnmoved(rules, cache.value, claims, f.now, epoch, o.hints, o.later, u.hints, w);
      if Guarded(cache.value, o, f.tip.value) {
        SkipIsBacked(rules, name, cache.value, claims, f.now, f.tip.value, o.hints, o.view, o.tip, o.later, u.hints, w);
      }
      res := Some(Send(cache.value.addr, true, disagree, false, false));
    }

    static lemma SkipsIff(e: Entry, pairs: seq<HintPair>, usable: seq<Source>, claims: seq<Claim>, now: int, epoch: Option<int>, hashAt: Option<HashAt>)
      requires |claims| == |usable| && forall i :: 0 <= i < |usable| ==> claims[i] == usable[i].claim
      ensures hashAt.Some? ==> (Skips(e, pairs, claims, now, epoch, hashAt.value) <==>
        && epoch == Some(e.epoch) && now - e.ts <= 120_000 && e.pairs == pairs && (forall s :: s in usable ==> !s.claim.lapsed)
        && (forall p :: p in e.pairs ==> SameHash(hashAt.value(p.height), e.hashes, p.height)))
      ensures (exists c :: c in claims && !Agrees(c, e.addr)) <==> (exists s :: s in usable && !Agrees(s.claim, e.addr))
    {
      assert forall s :: s in usable ==> s.claim in claims by {
        forall s | s in usable ensures s.claim in claims { var i :| 0 <= i < |usable| && usable[i] == s; assert claims[i] in claims; }
      }
      assert forall c :: c in claims ==> exists s :: s in usable && s.claim == c by {
        forall c | c in claims ensures exists s :: s in usable && s.claim == c { var i :| 0 <= i < |claims| && claims[i] == c; assert usable[i] in usable; }
      }
    }

    static lemma SkipGates(e: Entry, pairs: seq<HintPair>, usable: seq<Source>, claims: seq<Claim>, now: int, epoch: Option<int>, hashAt: HashAt)
      requires Skips(e, pairs, claims, now, epoch, hashAt)
      requires |claims| == |usable| && forall i :: 0 <= i < |usable| ==> claims[i] == usable[i].claim
      ensures epoch.Some? && now - e.ts <= HINTSET_TTL_MS && forall s :: s in usable ==> !s.claim.lapsed
    {
      forall s | s in usable ensures !s.claim.lapsed {
        var i :| 0 <= i < |usable| && usable[i] == s;
        assert claims[i] in claims;
      }
    }

    // confirmName: the fast path, or a resolution anew.
    method ConfirmName(name: string, cache: Option<Entry>, startedGen: nat, ghost o: Origin, f: Refetch, ghost w: View,
                       a: Answers, ghost chain: int -> Blocks.Body, ghost chains: nat -> (int -> Blocks.Body))
      returns (res: Resolution)
      requires cache.Some? ==> Holds(rules, name, cache.value, o)
      requires NamesEveryHash(rules) && HashFixes(o.view, o.later) && HashFixes(o.later, w) && (f.hashAt.Some? ==> f.hashAt.value == w.hash)
      requires AllRooted(a.served, chain, a.solo, chains)
      ensures res.Send? && res.verified ==>
        || UnionProof(rules, name, FetchOf(a.results), a.served, chain, res.addr)
        || (exists i: nat :: SoloProof(rules, name, FetchOf(a.results), a.solo, chains, res.addr, i))
        || (cache.Some? && f.tip.Some? && gen == startedGen
            && (Guarded(cache.value, o, f.tip.value) ==>
                  Backed(rules, w.chain, name, ValidPairs(FetchOf(f.results).hints), f.tip.value, res.addr, false)))
      ensures res == Refuse(LapseConfirmed) ==> LapsedTwice(rules, name, FetchOf(a.results), a.served, chain)
    {
      hide FetchOf, Backed, ValidPairs, HashFixes, NamesEveryHash, Holds, UnionProof, SoloProof, LapsedTwice, AllRooted, Guarded;
      var skipped := FinishConfirm(name, cache, startedGen, o, f, w);
      if skipped.Some? { return skipped.value; }
      res := ResolveSend(rules, name, a, chain, chains);
    }
  }
}
