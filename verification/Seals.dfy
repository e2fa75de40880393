// Sealed claims: the list cap, and the write chain that parks a paid commit's preimage until its list write succeeds.
// Every await of the source is a scheduling point here: the store answers or fails, and the wallet may lock, unlock or
// be wiped, between any two steps of a write.

module Seals {
  import opened Base

  const SEAL_CAP: nat := 500

  type Key = string    // sealKey(address)

  datatype Rec = Rec(txid: string, revealed: bool)
  datatype Parked = Parked(k: Key, rec: Rec)

  // ---- The cap ----

  function Revealed(list: seq<Rec>): nat {
    if list == [] then 0 else Revealed(list[..|list| - 1]) + if list[|list| - 1].revealed then 1 else 0
  }

  // The walk from the oldest entry: up to `over` revealed ones are dropped on the way.
  function Walk(list: seq<Rec>, over: nat): seq<Rec> {
    if list == [] then []
    else
      var init, last := list[..|list| - 1], list[|list| - 1];
      if over > 0 && last.revealed then Walk(init, over - 1) else Walk(init, over) + [last]
  }

  function CapSealsOf(list: seq<Rec>): seq<Rec> { if |list| <= SEAL_CAP then list else Walk(list, |list| - SEAL_CAP) }

  method CapSeals(list: seq<Rec>) returns (out: seq<Rec>)
    ensures out == CapSealsOf(list)
    ensures |list| <= 500 ==> out == list
    ensures |list| > 500 ==> |out| == |list| - Min(|list| - 500, Revealed(list))
  {
    if |list| > SEAL_CAP { WalkDropsOldestRevealed(list, |list| - SEAL_CAP); }
    if |list| <= SEAL_CAP { return list; }
    var over := |list| - SEAL_CAP;
    out := [];
    var i := |list|;
    assert list[..|list|] == list;
    while i > 0
      invariant 0 <= i <= |list| && over >= 0
      invariant Walk(list[..i], over) + out == CapSealsOf(list)
    {
      i := i - 1;
      assert list[..i + 1][..i] == list[..i];
      if over > 0 && list[i].revealed {
        over := over - 1;
      } else {
        out := [list[i]] + out;
      }
    }
  }

  // The newest-first list without the `over` oldest revealed entries: an entry goes when it is revealed and fewer than
  // `over` revealed ones are older.
  function WithoutOldestRevealed(list: seq<Rec>, over: nat): seq<Rec> {
    if list == [] then []
    else
      var rest := WithoutOldestRevealed(list[1..], over);
      if list[0].revealed && Revealed(list[1..]) < over then rest else [list[0]] + rest
  }

  lemma {:induction false} RevealedSplit(a: seq<Rec>, b: seq<Rec>)
    ensures Revealed(a + b) == Revealed(a) + Revealed(b)
  {
    if b == [] {
      assert a + b == a;
    } else {
      assert (a + b)[..|a + b| - 1] == a + b[..|b| - 1];
      RevealedSplit(a, b[..|b| - 1]);
    }
  }

  lemma {:induction false} WalkCons(x: Rec, rest: seq<Rec>, over: nat)
    ensures Walk([x] + rest, over) == (if x.revealed && Revealed(rest) < over then [] else [x]) + Walk(rest, over)
  {
    if rest == [] {
      assert [x] + rest == [x] && [x][..0] == [];
    } else {
      var init, last := rest[..|rest| - 1], rest[|rest| - 1];
      assert ([x] + rest)[..|rest|] == [x] + init;
      WalkCons(x, init, if over > 0 && last.revealed then over - 1 else over);
    }
  }

  // The cap drops exactly the oldest revealed entries needed, and keeps the order of the rest.
  lemma {:induction false} WalkDropsOldestRevealed(list: seq<Rec>, over: nat)
    ensures Walk(list, over) == WithoutOldestRevealed(list, over)
    ensures |Walk(list, over)| == |list| - Min(over, Revealed(list))
  {
    if list != [] {
      assert list == [list[0]] + list[1..];
      WalkCons(list[0], list[1..], over);
      WalkDropsOldestRevealed(list[1..], over);
      RevealedSplit([list[0]], list[1..]);
      assert [list[0]][..0] == [];
    }
  }

  // No unrevealed entry is dropped, and nothing is added.
  lemma {:induction false} WalkKeeps(list: seq<Rec>, over: nat, x: Rec)
    ensures x in Walk(list, over) ==> x in list
    ensures x in list && !x.revealed ==> x in Walk(list, over)
  {
    if list != [] {
      var init, last := list[..|list| - 1], list[|list| - 1];
      assert list == init + [last];
      WalkKeeps(init, if over > 0 && last.revealed then over - 1 else over, x);
    }
  }

  // ---- The write chain ----

  // Where the running chain callback waits; Idle between callbacks.
  datatype Job =
    | Idle
    | Reading(k: Key, rest: seq<Key>)                       // persistSeal: the list of k is being read
    | Writing(k: Key, list: seq<Rec>, rest: seq<Key>)       // persistSeal: the merged list of k is being written
    | RevealReading(k: Key, txid: string)
    | RevealWriting(k: Key, list: seq<Rec>)
    | Deleting(k: Key)                                      // removeAccount

  datatype State = State(stored: map<Key, seq<Rec>>, pending: seq<Parked>, unlocked: bool, wiped: bool, job: Job)

  datatype Event =
    | Persist(add: Option<Parked>)          // persistSeal starts its callback
    | ReadAnswer(ok: bool)                  // the store answers the read, or fails
    | WriteAnswer(ok: bool)                 // the store takes the write, or fails (or the preimages could not be sealed)
    | Reveal(k: Key, txid: string)          // revealClaim's write-back starts
    | Remove(k: Key)                        // removeAccount's purge starts
    | Lock | Unlock
    | Wipe                                  // reset() sets its flag and locks
    | Reset(deleted: set<Key>)              // doReset, chained behind everything queued; `deleted` names the lists it deletes
    | NewVault                              // sealFresh adopts a newly sealed wallet

  function ListOf(stored: map<Key, seq<Rec>>, k: Key): seq<Rec> { if k in stored then stored[k] else [] }

  predicate HasTxid(list: seq<Rec>, txid: string) { exists i :: 0 <= i < |list| && list[i].txid == txid }

  predicate IsParked(pending: seq<Parked>, k: Key, txid: string) {
    exists i :: 0 <= i < |pending| && pending[i].k == k && pending[i].rec.txid == txid
  }

  // Every parked record of k not in the list, newest first.
  function Merged(list: seq<Rec>, pending: seq<Parked>, k: Key): seq<Rec> {
    if pending == [] then list
    else
      var before, p := Merged(list, pending[..|pending| - 1], k), pending[|pending| - 1];
      if p.k == k && !HasTxid(before, p.rec.txid) then [p.rec] + before else before
  }

  function KeysOf(pending: seq<Parked>): seq<Key> {
    if pending == [] then []
    else
      var before, k := KeysOf(pending[..|pending| - 1]), pending[|pending| - 1].k;
      if k in before then before else before + [k]
  }

  function Without(pending: seq<Parked>, k: Key): seq<Parked> {
    if pending == [] then []
    else
      var before, p := Without(pending[..|pending| - 1], k), pending[|pending| - 1];
      if p.k == k then before else before + [p]
  }

  function Mark(list: seq<Rec>, txid: string): seq<Rec> {
    if list == [] then []
    else if list[0].txid == txid then [list[0].(revealed := true)] + list[1..]
    else [list[0]] + Mark(list[1..], txid)
  }

  function MarkParked(pending: seq<Parked>, k: Key, txid: string): seq<Parked> {
    seq(|pending|, i requires 0 <= i < |pending| =>
      if pending[i].k == k && pending[i].rec.txid == txid then pending[i].(rec := pending[i].rec.(revealed := true)) else pending[i])
  }

  function NextKey(rest: seq<Key>): Job { if rest == [] then Idle else Reading(rest[0], rest[1..]) }

  // One step. An event that does not fit where the chain waits changes nothing.
  function Step(s: State, e: Event): State {
    match e
    case Lock => s.(unlocked := false)
    case Unlock => s.(unlocked := true)
    case Wipe => s.(wiped := true, unlocked := false)
    case Persist(add) =>
      if !s.job.Idle? then s
      else if add.Some? && !IsParked(s.pending, add.value.k, add.value.rec.txid) && s.wiped then s
      else
        var pending := if add.Some? && !IsParked(s.pending, add.value.k, add.value.rec.txid) then s.pending + [add.value] else s.pending;
        s.(pending := pending, job := if s.unlocked then NextKey(KeysOf(pending)) else Idle)
    case Reveal(k, txid) =>
      if !s.job.Idle? || !s.unlocked then s
      else s.(pending := MarkParked(s.pending, k, txid), job := RevealReading(k, txid))
    case Remove(k) => if s.job.Idle? then s.(pending := Without(s.pending, k), job := Deleting(k)) else s
    case Reset(deleted) => if s.job.Idle? then s.(pending := [], stored := s.stored - deleted) else s
    case NewVault => s.(wiped := false, unlocked := true)
    case ReadAnswer(ok) => (
      match s.job
      case Reading(k, rest) =>
        if ok then s.(job := Writing(k, Merged(ListOf(s.stored, k), s.pending, k), rest)) else s.(job := NextKey(rest))
      case RevealReading(k, txid) =>
        if ok && HasTxid(ListOf(s.stored, k), txid) then s.(job := RevealWriting(k, Mark(ListOf(s.stored, k), txid))) else s.(job := Idle)
      case _ => s)
    case WriteAnswer(ok) => (
      match s.job
      case Writing(k, list, rest) =>
        if ok then s.(stored := s.stored[k := CapSealsOf(list)], pending := Without(s.pending, k), job := NextKey(rest))
        else s.(job := NextKey(rest))
      case RevealWriting(k, list) => if ok then s.(stored := s.stored[k := list], job := Idle) else s.(job := Idle)
      case Deleting(k) => if ok then s.(stored := s.stored - {k}, job := Idle) else s.(job := Idle)
      case _ => s)
  }

  function Run(s: State, es: seq<Event>): State { if es == [] then s else Step(Run(s, es[..|es| - 1]), es[|es| - 1]) }

  // ---- A seal is never lost ----

  ghost predicate Unrevealed(list: seq<Rec>, txid: string) { forall i :: 0 <= i < |list| && list[i].txid == txid ==> !list[i].revealed }

  ghost predicate ParkedUnrevealed(pending: seq<Parked>, k: Key, txid: string) {
    forall p :: p in pending && p.k == k && p.rec.txid == txid ==> !p.rec.revealed
  }

  // The record with this txid is stored or parked, unrevealed wherever it is, and in the list a write in flight puts down.
  ghost predicate Kept(s: State, k: Key, txid: string) {
    && (HasTxid(ListOf(s.stored, k), txid) || IsParked(s.pending, k, txid))
    && Unrevealed(ListOf(s.stored, k), txid)
    && ParkedUnrevealed(s.pending, k, txid)
    && (s.job.Writing? && s.job.k == k ==> HasTxid(s.job.list, txid) && Unrevealed(s.job.list, txid))
    && (s.job.RevealWriting? && s.job.k == k ==>
          Unrevealed(s.job.list, txid) && (HasTxid(ListOf(s.stored, k), txid) ==> HasTxid(s.job.list, txid)))
    && !(s.job.RevealReading? && s.job.k == k && s.job.txid == txid)
    && !(s.job.Deleting? && s.job.k == k)
  }

  // Events that may end a record's keeping: its own reveal, its account's removal, a reset.
  predicate Ends(e: Event, k: Key, txid: string) { e == Reveal(k, txid) || e == Remove(k) || e.Reset? }

  lemma {:induction false} MergedHas(list: seq<Rec>, pending: seq<Parked>, k: Key, txid: string)
    ensures HasTxid(Merged(list, pending, k), txid) <==> HasTxid(list, txid) || IsParked(pending, k, txid)
    ensures Unrevealed(list, txid) && ParkedUnrevealed(pending, k, txid) ==> Unrevealed(Merged(list, pending, k), txid)
  {
    if pending != [] {
      var n := |pending| - 1;
      var init, p, m := pending[..n], pending[n], Merged(list, pending[..n], k);
      MergedHas(list, init, k, txid);
      assert IsParked(pending, k, txid) <==> IsParked(init, k, txid) || (p.k == k && p.rec.txid == txid) by {
        if IsParked(init, k, txid) { var i :| 0 <= i < n && init[i].k == k && init[i].rec.txid == txid; assert pending[i] == init[i]; }
        if IsParked(pending, k, txid) { var i :| 0 <= i <= n && pending[i].k == k && pending[i].rec.txid == txid; if i < n { assert init[i] == pending[i]; } }
      }
      HasCons(p.rec, m, txid);
    }
  }

  lemma HasCons(x: Rec, list: seq<Rec>, txid: string)
    ensures HasTxid([x] + list, txid) <==> x.txid == txid || HasTxid(list, txid)
  {
    if HasTxid(list, txid) { var i :| 0 <= i < |list| && list[i].txid == txid; assert ([x] + list)[i + 1] == list[i]; }
    if HasTxid([x] + list, txid) { var i :| 0 <= i <= |list| && ([x] + list)[i].txid == txid; if i > 0 { assert list[i - 1] == ([x] + list)[i]; } }
    assert ([x] + list)[0] == x;
  }

  lemma {:induction false} CapHas(list: seq<Rec>, txid: string)
    requires HasTxid(list, txid) && Unrevealed(list, txid)
    ensures HasTxid(CapSealsOf(list), txid) && Unrevealed(CapSealsOf(list), txid)
  {
    if |list| > SEAL_CAP { WalkHas(list, |list| - SEAL_CAP, txid); }
  }

  lemma {:induction false} WalkHas(list: seq<Rec>, over: nat, txid: string)
    requires HasTxid(list, txid) && Unrevealed(list, txid)
    ensures HasTxid(Walk(list, over), txid) && Unrevealed(Walk(list, over), txid)
  {
    hide Walk;
    var i :| 0 <= i < |list| && list[i].txid == txid;
    WalkKeeps(list, over, list[i]);
    var out := Walk(list, over);
    var j :| 0 <= j < |out| && out[j] == list[i];
    forall m | 0 <= m < |out| && out[m].txid == txid ensures !out[m].revealed {
      assert out[m] in out;
      WalkKeeps(list, over, out[m]);
    }
  }

  lemma {:induction false} WithoutOther(pending: seq<Parked>, k: Key, txid: string, gone: Key)
    requires gone != k
    ensures IsParked(Without(pending, gone), k, txid) <==> IsParked(pending, k, txid)
    ensures forall p :: p in Without(pending, gone) ==> p in pending
  {
    if pending != [] {
      var n := |pending| - 1;
      var init, p, w := pending[..n], pending[n], Without(pending[..n], gone);
      WithoutOther(init, k, txid, gone);
      assert pending == init + [p];
      assert forall i :: 0 <= i < n ==> pending[i] == init[i];
      assert forall i :: 0 <= i < |w| ==> (w + [p])[i] == w[i];
      assert IsParked(w + [p], k, txid) <==> IsParked(w, k, txid) || (p.k == k && p.rec.txid == txid) by { assert (w + [p])[|w|] == p; }
      assert IsParked(pending, k, txid) <==> IsParked(init, k, txid) || (p.k == k && p.rec.txid == txid) by { assert pending[n] == p; }
    }
  }

  lemma {:induction false} MarkOther(list: seq<Rec>, txid: string, other: string)
    requires txid != other
    ensures HasTxid(Mark(list, other), txid) <==> HasTxid(list, txid)
    ensures Unrevealed(list, txid) ==> Unrevealed(Mark(list, other), txid)
  {
    if list != [] {
      assert list == [list[0]] + list[1..];
      HasCons(list[0], list[1..], txid);
      if list[0].txid == other {
        HasCons(list[0].(revealed := true), list[1..], txid);
      } else {
        MarkOther(list[1..], txid, other);
        HasCons(list[0], Mark(list[1..], other), txid);
        assert forall i :: 0 <= i < |list[1..]| ==> list[1..][i] == list[i + 1];
      }
    }
  }

  lemma {:induction false} MarkedParked(pending: seq<Parked>, at: Key, other: string, k: Key, txid: string)
    requires at != k || other != txid
    ensures IsParked(pending, k, txid) ==> IsParked(MarkParked(pending, at, other), k, txid)
    ensures ParkedUnrevealed(pending, k, txid) ==> ParkedUnrevealed(MarkParked(pending, at, other), k, txid)
  {
    var marked := MarkParked(pending, at, other);
    if IsParked(pending, k, txid) {
      var i :| 0 <= i < |pending| && pending[i].k == k && pending[i].rec.txid == txid;
      assert marked[i].k == k && marked[i].rec.txid == txid;
    }
    if ParkedUnrevealed(pending, k, txid) {
      forall p | p in marked && p.k == k && p.rec.txid == txid ensures !p.rec.revealed {
        var i :| 0 <= i < |marked| && marked[i] == p;
        assert pending[i] in pending;
      }
    }
  }

  // sealClaim records a seal unrevealed.
  predicate Honest(e: Event, k: Key, txid: string) {
    e.Persist? && e.add.Some? && e.add.value.k == k && e.add.value.rec.txid == txid ==> !e.add.value.rec.revealed
  }

  lemma {:induction false} PersistKeeps(s: State, add: Option<Parked>, k: Key, txid: string)
    requires Kept(s, k, txid) && Honest(Persist(add), k, txid)
    ensures Kept(Step(s, Persist(add)), k, txid)
  {
    var t := Step(s, Persist(add));
    if t.pending != s.pending && IsParked(s.pending, k, txid) {
      var i :| 0 <= i < |s.pending| && s.pending[i].k == k && s.pending[i].rec.txid == txid;
      assert t.pending[i] == s.pending[i];
    }
  }

  lemma {:induction false} ReadKeeps(s: State, ok: bool, k: Key, txid: string)
    requires Kept(s, k, txid)
    ensures Kept(Step(s, ReadAnswer(ok)), k, txid)
  {
    if s.job.Reading? {
      MergedHas(ListOf(s.stored, k), s.pending, k, txid);
    } else if s.job.RevealReading? && s.job.txid != txid {
      MarkOther(ListOf(s.stored, k), txid, s.job.txid);
    }
  }

  lemma {:induction false} WriteKeeps(s: State, ok: bool, k: Key, txid: string)
    requires Kept(s, k, txid)
    ensures Kept(Step(s, WriteAnswer(ok)), k, txid)
  {
    if ok && s.job.Writing? {
      if s.job.k == k {
        CapHas(s.job.list, txid);
        WithoutSame(s.pending, k);
      } else {
        WithoutOther(s.pending, k, txid, s.job.k);
      }
    }
  }

  lemma {:induction false} WithoutSame(pending: seq<Parked>, k: Key)
    ensures forall p :: p in Without(pending, k) ==> p.k != k && p in pending
  {
    if pending != [] { WithoutSame(pending[..|pending| - 1], k); }
  }

  lemma {:induction false} StepKeeps(s: State, e: Event, k: Key, txid: string)
    requires Kept(s, k, txid) && !Ends(e, k, txid)
    requires Honest(e, k, txid)
    ensures Kept(Step(s, e), k, txid)
  {
    match e
    case Persist(add) => PersistKeeps(s, add, k, txid);
    case Reveal(at, other) => MarkedParked(s.pending, at, other, k, txid);
    case Remove(gone) => WithoutOther(s.pending, k, txid, gone);
    case ReadAnswer(ok) => ReadKeeps(s, ok, k, txid);
    case WriteAnswer(ok) => WriteKeeps(s, ok, k, txid);
    case _ =>
  }

  ghost predicate Keeping(es: seq<Event>, k: Key, txid: string) {
    forall e :: e in es ==> !Ends(e, k, txid) && Honest(e, k, txid)
  }

  // Over every interleaving of store answers, failures, locks, unlocks, other seals and cap evictions.
  lemma {:induction false} RunKeeps(s: State, es: seq<Event>, k: Key, txid: string)
    requires Kept(s, k, txid) && Keeping(es, k, txid)
    ensures Kept(Run(s, es), k, txid)
  {
    if es != [] {
      var init, e := es[..|es| - 1], es[|es| - 1];
      assert forall x :: x in init ==> x in es;
      RunKeeps(s, init, k, txid);
      StepKeeps(Run(s, init), e, k, txid);
    }
  }

  // A seal given to persistSeal on a wallet that is not wiped is stored or parked in every later state, locked or not,
  // until its own reveal, its account's removal or a reset.
  lemma AcceptedSealIsRecoverable(s: State, p: Parked, es: seq<Event>)
    requires s.job.Idle? && !s.wiped && !p.rec.revealed
    requires Unrevealed(ListOf(s.stored, p.k), p.rec.txid) && ParkedUnrevealed(s.pending, p.k, p.rec.txid)
    requires Keeping(es, p.k, p.rec.txid)
    ensures var t := Run(Step(s, Persist(Some(p))), es);
      HasTxid(ListOf(t.stored, p.k), p.rec.txid) || IsParked(t.pending, p.k, p.rec.txid)
  {
    var t := Step(s, Persist(Some(p)));
    assert t.pending != s.pending ==> t.pending[|s.pending|] == p;
    RunKeeps(t, es, p.k, p.rec.txid);
  }

  // ---- What a store that answers brings about ----

  // A read and a write of the store, both answered.
  function Served(n: nat): seq<Event> { if n == 0 then [] else Served(n - 1) + [ReadAnswer(true), WriteAnswer(true)] }

  lemma RunTwo(s: State, es: seq<Event>, a: Event, b: Event)
    ensures Run(s, es + [a, b]) == Step(Step(Run(s, es), a), b)
  {
    assert (es + [a, b])[..|es| + 1] == es + [a] && (es + [a])[..|es|] == es;
  }

  // The keys still to be written are those of the parked records, once each.
  ghost predicate Draining(s: State, keys: seq<Key>) {
    && s.job == NextKey(keys) && (forall i, j :: 0 <= i < j < |keys| ==> keys[i] != keys[j])
    && forall p :: p in s.pending ==> p.k in keys
  }

  // One key's round: its list is rewritten with every parked record of it, which are then parked no more.
  lemma {:induction false} KeyLands(s: State, keys: seq<Key>)
    requires Draining(s, keys) && keys != []
    ensures var t := Step(Step(s, ReadAnswer(true)), WriteAnswer(true));
      && Draining(t, keys[1..]) && t.pending == Without(s.pending, keys[0])
      && t.stored == s.stored[keys[0] := CapSealsOf(Merged(ListOf(s.stored, keys[0]), s.pending, keys[0]))]
  {
    hide Merged, CapSealsOf, Without;
    WithoutSame(s.pending, keys[0]);
  }

  // What a seal needs to come through: it is stored, or parked under a key still to be written; unrevealed either way.
  ghost predicate OnItsWay(s: State, keys: seq<Key>, k: Key, txid: string) {
    && (HasTxid(ListOf(s.stored, k), txid) || (IsParked(s.pending, k, txid) && k in keys))
    && Unrevealed(ListOf(s.stored, k), txid) && ParkedUnrevealed(s.pending, k, txid)
  }

  lemma {:induction false} KeyBrings(s: State, keys: seq<Key>, k: Key, txid: string)
    requires Draining(s, keys) && keys != [] && OnItsWay(s, keys, k, txid)
    ensures OnItsWay(Step(Step(s, ReadAnswer(true)), WriteAnswer(true)), keys[1..], k, txid)
  {
    hide Merged, CapSealsOf, Without, HasTxid, IsParked, Unrevealed, ParkedUnrevealed, Step;
    KeyLands(s, keys);
    var list := ListOf(s.stored, k);
    if keys[0] == k {
      MergedHas(list, s.pending, k, txid);
      CapHas(Merged(list, s.pending, k), txid);
      NoneParked(s.pending, k, txid);
    } else {
      WithoutOther(s.pending, k, txid, keys[0]);
      FewerUnrevealed(s.pending, Without(s.pending, keys[0]), k, txid);
    }
  }

  lemma NoneParked(pending: seq<Parked>, k: Key, txid: string)
    ensures ParkedUnrevealed(Without(pending, k), k, txid)
  {
    WithoutSame(pending, k);
  }

  lemma FewerUnrevealed(a: seq<Parked>, b: seq<Parked>, k: Key, txid: string)
    requires ParkedUnrevealed(a, k, txid) && forall p :: p in b ==> p in a
    ensures ParkedUnrevealed(b, k, txid)
  {
  }

  lemma {:induction false} RoundsBring(s: State, keys: seq<Key>, n: nat, k: Key, txid: string)
    requires Draining(s, keys) && n <= |keys| && OnItsWay(s, keys, k, txid)
    ensures Draining(Run(s, Served(n)), keys[n..]) && OnItsWay(Run(s, Served(n)), keys[n..], k, txid)
  {
    hide Step, Draining, OnItsWay;
    if n > 0 {
      RoundsBring(s, keys, n - 1, k, txid);
      var t := Run(s, Served(n - 1));
      RunTwo(s, Served(n - 1), ReadAnswer(true), WriteAnswer(true));
      KeyLands(t, keys[n - 1..]);
      KeyBrings(t, keys[n - 1..], k, txid);
      assert keys[n - 1..][1..] == keys[n..];
    }
  }

  lemma {:induction false} KeysOfIs(pending: seq<Parked>)
    ensures forall i, j :: 0 <= i < j < |KeysOf(pending)| ==> KeysOf(pending)[i] != KeysOf(pending)[j]
    ensures forall p :: p in pending ==> p.k in KeysOf(pending)
  {
    if pending != [] {
      KeysOfIs(pending[..|pending| - 1]);
      assert forall p :: p in pending <==> p in pending[..|pending| - 1] || p == pending[|pending| - 1];
    }
  }

  lemma NothingLeft(pending: seq<Parked>)
    ensures pending == [] || exists p :: p in pending
  {
    if pending != [] { assert pending[0] in pending; }
  }

  // Once the wallet is unlocked and the store answers, a persist writes every parked seal down: after one read and one
  // write a key nothing is parked, and every seal that was parked unrevealed is in its account's list.
  lemma {:induction false} ParkedSealsAreStored(s: State, k: Key, txid: string)
    requires s.job.Idle? && s.unlocked && IsParked(s.pending, k, txid)
    requires Unrevealed(ListOf(s.stored, k), txid) && ParkedUnrevealed(s.pending, k, txid)
    ensures var t := Run(Step(s, Persist(None)), Served(|KeysOf(s.pending)|));
      t.job.Idle? && t.pending == [] && HasTxid(ListOf(t.stored, k), txid) && Unrevealed(ListOf(t.stored, k), txid)
  {
    var keys := KeysOf(s.pending);
    KeysOfIs(s.pending);
    var i :| 0 <= i < |s.pending| && s.pending[i].k == k && s.pending[i].rec.txid == txid;
    assert s.pending[i] in s.pending;
    var t := Step(s, Persist(None));
    assert OnItsWay(t, keys, k, txid);
    RoundsBring(t, keys, |keys|, k, txid);
    var u := Run(t, Served(|keys|));
    assert keys[|keys|..] == [];
    NothingLeft(u.pending);
  }

  // A locked wallet starts no write: it parks the seal and waits; nor does it take a reveal.
  lemma LockedOnlyParks(s: State, p: Parked, k: Key, txid: string)
    requires s.job.Idle? && !s.unlocked
    ensures var t := Step(s, Persist(Some(p)));
      t.job.Idle? && t.stored == s.stored && t.pending == if s.wiped || IsParked(s.pending, p.k, p.rec.txid) then s.pending else s.pending + [p]
    ensures Step(s, Reveal(k, txid)) == s
  {
  }

  // A reveal's write marks the seal revealed, the first of its txid, and leaves every other entry as it was.
  lemma {:induction false} MarkIs(list: seq<Rec>, txid: string)
    ensures |Mark(list, txid)| == |list|
    ensures forall i :: 0 <= i < |list| ==>
      Mark(list, txid)[i] == if list[i].txid == txid && !HasTxid(list[..i], txid) then list[i].(revealed := true) else list[i]
  {
    if list != [] {
      MarkIs(list[1..], txid);
      assert list[..0] == [] && !HasTxid([], txid);
      forall i | 0 < i < |list| ensures HasTxid(list[..i], txid) <==> list[0].txid == txid || HasTxid(list[1..][..i - 1], txid) {
        assert list[..i] == [list[0]] + list[1..][..i - 1];
        HasCons(list[0], list[1..][..i - 1], txid);
      }
      if list[0].txid != txid {
        assert forall i :: 0 < i < |list| ==> list[i] == list[1..][i - 1] && Mark(list, txid)[i] == Mark(list[1..], txid)[i - 1];
      }
    }
  }

  lemma RevealLands(s: State, k: Key, txid: string)
    requires s.job.Idle? && s.unlocked && HasTxid(ListOf(s.stored, k), txid)
    ensures var t := Step(Step(Step(s, Reveal(k, txid)), ReadAnswer(true)), WriteAnswer(true));
      && t.job.Idle? && t.stored == s.stored[k := Mark(ListOf(s.stored, k), txid)] && |t.pending| == |s.pending|
      && forall i :: 0 <= i < |s.pending| ==>
           t.pending[i] == if s.pending[i].k == k && s.pending[i].rec.txid == txid then s.pending[i].(rec := Rec(txid, true)) else s.pending[i]
  {
  }

  // A removal whose delete lands leaves the account no list and nothing parked, and every other account as it was.
  lemma {:induction false} RemovalLands(s: State, k: Key)
    requires s.job.Idle?
    ensures var t := Step(Step(s, Remove(k)), WriteAnswer(true));
      && t.job.Idle? && t.stored == s.stored - {k}
      && (forall p :: p in t.pending <==> p in s.pending && p.k != k)
  {
    WithoutIs(s.pending, k);
  }

  lemma {:induction false} WithoutIs(pending: seq<Parked>, k: Key)
    ensures forall p :: p in Without(pending, k) <==> p in pending && p.k != k
  {
    if pending != [] {
      WithoutIs(pending[..|pending| - 1], k);
      assert forall p :: p in pending <==> p in pending[..|pending| - 1] || p == pending[|pending| - 1];
    }
  }

  // ---- A reset ----

  // A wiped wallet whose lists are among `left`, with nothing parked and no write under way to any other.
  ghost predicate Cleared(s: State, left: set<Key>) {
    && s.wiped && s.pending == [] && s.stored.Keys <= left
    && (s.job.Idle? || s.job.RevealReading? || s.job.Deleting? || (s.job.RevealWriting? && s.job.k in left))
  }

  lemma {:induction false} StaysCleared(s: State, es: seq<Event>, left: set<Key>)
    requires Cleared(s, left) && NewVault !in es
    ensures Cleared(Run(s, es), left)
  {
    if es != [] { StaysCleared(s, es[..|es| - 1], left); }
  }

  lemma {:induction false} StaysWiped(s: State, es: seq<Event>)
    requires s.wiped && NewVault !in es
    ensures Run(s, es).wiped
  {
    if es != [] { StaysWiped(s, es[..|es| - 1]); }
  }

  // From any state: once the wallet is wiped and the chained reset has run, whatever was queued, answered or unlocked in
  // between and after, no seal is parked and none is stored but under a key the reset did not name, until a new vault is
  // sealed; with every stored list named, none at all.
  lemma {:induction false} ResetLeavesNoSeal(s: State, before: seq<Event>, deleted: set<Key>, after: seq<Event>)
    requires NewVault !in before && NewVault !in after && Run(Step(s, Wipe), before).job.Idle?
    ensures var u := Run(Step(s, Wipe), before);
            var t := Run(Step(u, Reset(deleted)), after);
      t.pending == [] && t.stored.Keys <= u.stored.Keys - deleted
  {
    StaysWiped(Step(s, Wipe), before);
    var u := Run(Step(s, Wipe), before);
    StaysCleared(Step(u, Reset(deleted)), after, u.stored.Keys - deleted);
  }

  // ---- The class: one method a section between two awaits ----

  class SealedClaims {
    var stored: map<Key, seq<Rec>>
    var pending: seq<Parked>      // pendingSeals
    var unlocked: bool
    var wiped: bool
    var job: Job                  // sealChain's running callback

    ghost function Now(): State reads this { State(stored, pending, unlocked, wiped, job) }

    constructor ()
      ensures Now() == State(map[], [], false, false, Idle)
    {
      stored, pending, unlocked, wiped, job := map[], [], false, false, Idle;
    }

    method PersistSeal(add: Option<Parked>)
      modifies this
      ensures Now() == Step(old(Now()), Persist(add))
    {
      if !job.Idle? { return; }
      if add.Some? {
        var found := Find(add.value.k, add.value.rec.txid);
        if !found {
          if wiped { return; }
          pending := pending + [add.value];
        }
      }
      if !unlocked { return; }
      var keys := [];
      for i := 0 to |pending|
        invariant keys == KeysOf(pending[..i])
      {
        assert pending[..i + 1][..i] == pending[..i];
        if pending[i].k !in keys { keys := keys + [pending[i].k]; }
      }
      assert pending[..|pending|] == pending;
      job := NextKey(keys);
    }

    method Find(k: Key, txid: string) returns (found: bool)
      ensures found == IsParked(pending, k, txid)
    {
      for i := 0 to |pending|
        invariant forall j :: 0 <= j < i ==> !(pending[j].k == k && pending[j].rec.txid == txid)
      {
        if pending[i].k == k && pending[i].rec.txid == txid { return true; }
      }
      return false;
    }

    // The read's answer: the parked records of the key go on top of the list that was read.
    method ReadAnswered(ok: bool)
      modifies `job
      ensures Now() == Step(old(Now()), ReadAnswer(ok))
    {
      match job
      case Reading(k, rest) =>
        if !ok { job := NextKey(rest); return; }
        var was := ListOf(stored, k);
        var list := was;
        for i := 0 to |pending|
          invariant list == Merged(was, pending[..i], k)
        {
          assert pending[..i + 1][..i] == pending[..i];
          if pending[i].k == k && !HasTxid(list, pending[i].rec.txid) { list := [pending[i].rec] + list; }
        }
        assert pending[..|pending|] == pending;
        job := Writing(k, list, rest);
      case RevealReading(k, txid) =>
        var current := ListOf(stored, k);
        if ok && HasTxid(current, txid) { job := RevealWriting(k, Mark(current, txid)); } else { job := Idle; }
      case _ =>
    }

    method WriteAnswered(ok: bool)
      modifies `stored, `pending, `job
      ensures Now() == Step(old(Now()), WriteAnswer(ok))
    {
      match job
      case Writing(k, list, rest) =>
        if ok {
          var capped := CapSeals(list);
          stored := stored[k := capped];
          Unpark(k);
        }
        job := NextKey(rest);
      case RevealWriting(k, list) =>
        if ok { stored := stored[k := list]; }
        job := Idle;
      case Deleting(k) =>
        if ok { stored := stored - {k}; }
        job := Idle;
      case _ =>
    }

    method Unpark(k: Key)
      modifies `pending
      ensures pending == Without(old(pending), k)
    {
      var kept := [];
      for i := 0 to |pending|
        invariant kept == Without(pending[..i], k)
      {
        assert pending[..i + 1][..i] == pending[..i];
        if pending[i].k != k { kept := kept + [pending[i]]; }
      }
      assert pending[..|pending|] == pending;
      pending := kept;
    }

    method RevealClaim(k: Key, txid: string)
      modifies `pending, `job
      ensures Now() == Step(old(Now()), Reveal(k, txid))
    {
      if !job.Idle? || !unlocked { return; }
      pending := MarkParked(pending, k, txid);
      job := RevealReading(k, txid);
    }

    method RemoveAccount(k: Key)
      modifies `pending, `job
      ensures Now() == Step(old(Now()), Remove(k))
    {
      if !job.Idle? { return; }
      Unpark(k);
      job := Deleting(k);
    }
  }
}
