// The account list, its sealed vault and its cleartext mirror. Account operations change the list at once and queue a
// write; a write takes its snapshot when its turn comes and lands key by key, each of which may fail; locks, unlocks and
// resets fall in between. The order of the queued writes is the promise chain's (module Chains).

module Vault {
  import opened Base

  datatype Acct = Acct(addr: string, name: string, index: Option<nat>, imported: bool)

  // The unlocked state, and the document a vault seals. `seed`: there is a recovery phrase.
  datatype Doc = Doc(accts: seq<Acct>, active: int, nextIndex: nat, seed: bool)

  datatype PubAcct = PubAcct(addr: string, name: string, imported: bool)

  predicate Derived(a: Acct) { a.index.Some? && !a.imported }

  predicate SameAddr(a: string, b: string) { LowerCase(a) == LowerCase(b) }

  function MirrorOf(accts: seq<Acct>): seq<PubAcct> {
    seq(|accts|, i requires 0 <= i < |accts| => PubAcct(accts[i].addr, accts[i].name, accts[i].imported))
  }

  // ---- The operations on the list ----

  // The first account at the address.
  function IndexFrom(accts: seq<Acct>, addr: string, k: nat): (i: int)
    requires k <= |accts|
    ensures i == -1 || (k <= i < |accts| && SameAddr(accts[i].addr, addr))
    decreases |accts| - k
  {
    if k == |accts| then -1 else if SameAddr(accts[k].addr, addr) then k else IndexFrom(accts, addr, k + 1)
  }

  function IndexOf(accts: seq<Acct>, addr: string): int { IndexFrom(accts, addr, 0) }

  predicate NoneAt(accts: seq<Acct>, addr: string) { forall a :: a in accts ==> LowerCase(a.addr) != LowerCase(addr) }

  // The first account at the address, whatever the case of its letters.
  lemma {:induction false} IndexIs(accts: seq<Acct>, addr: string, k: nat)
    requires k <= |accts|
    ensures var i := IndexFrom(accts, addr, k);
      if i == -1 then NoneAt(accts[k..], addr) else k <= i < |accts| && LowerCase(accts[i].addr) == LowerCase(addr) && NoneAt(accts[k..i], addr)
    decreases |accts| - k
  {
    if k < |accts| {
      IndexIs(accts, addr, k + 1);
      var i := IndexFrom(accts, addr, k + 1);
      assert accts[k..] == [accts[k]] + accts[k + 1..];
      if i >= 0 { assert accts[k..i] == [accts[k]] + accts[k + 1..i]; }
    }
  }

  datatype Op =
    | Add(name: string, random: string)       // `random`: the address of a fresh key, used without a phrase
    | Import(addr: string, name: string)
    | SwitchTo(i: int)
    | Rename(addr: string, name: string)

  // None where the operation is refused. `derive` is the address of the phrase's account at an index.
  function Apply(d: Doc, op: Op, derive: nat -> string): Option<Doc> {
    match op
    case Add(name, random) =>
      var a := if d.seed then Acct(derive(d.nextIndex), name, Some(d.nextIndex), false) else Acct(random, name, None, true);
      Some(Doc(d.accts + [a], |d.accts|, d.nextIndex + if d.seed then 1 else 0, d.seed))
    case Import(addr, name) =>
      if IndexOf(d.accts, addr) >= 0 then None else Some(d.(accts := d.accts + [Acct(addr, name, None, true)], active := |d.accts|))
    case SwitchTo(i) => if 0 <= i < |d.accts| then Some(d.(active := i)) else None
    case Rename(addr, name) =>
      var i := IndexOf(d.accts, addr);
      if i < 0 then None else Some(d.(accts := d.accts[i := d.accts[i].(name := name)]))
  }

  function RemoveAt(d: Doc, i: nat): Doc
    requires i < |d.accts|
  {
    var accts := d.accts[..i] + d.accts[i + 1..];
    d.(accts := accts, active := if d.active >= |accts| then |accts| - 1 else if d.active > i then d.active - 1 else d.active)
  }

  // The list is not empty, `active` is in it, and every derived index was used once and is below the next one.
  ghost predicate Good(d: Doc) {
    && 0 <= d.active < |d.accts|
    && (forall a :: a in d.accts && Derived(a) ==> a.index.value < d.nextIndex)
    && (forall i, j :: 0 <= i < j < |d.accts| && Derived(d.accts[i]) && Derived(d.accts[j]) ==> d.accts[i].index != d.accts[j].index)
  }

  lemma {:induction false} ApplyKeeps(d: Doc, op: Op, derive: nat -> string)
    requires Good(d) && Apply(d, op, derive).Some?
    ensures Good(Apply(d, op, derive).value)
  {
    var t := Apply(d, op, derive).value;
    match op
    case Add(_, _) =>
      assert forall i :: 0 <= i < |d.accts| ==> d.accts[i] in d.accts;
    case Rename(addr, name) =>
      var i := IndexOf(d.accts, addr);
      forall a | a in t.accts && Derived(a) ensures a.index.value < t.nextIndex {
        var j :| 0 <= j < |t.accts| && t.accts[j] == a;
        assert d.accts[j] in d.accts;
      }
    case _ =>
  }

  // Removing an account keeps the others in order, and the active one active wherever it moved to.
  lemma {:induction false} RemoveFollows(d: Doc, i: nat)
    requires Good(d) && i < |d.accts| && |d.accts| > 1
    ensures Good(RemoveAt(d, i))
    ensures var t := RemoveAt(d, i);
      && (d.active != i ==> t.accts[t.active] == d.accts[d.active])
      && (d.active == i ==> t.active == Min(i, |t.accts| - 1))
      && (forall j :: 0 <= j < |t.accts| ==> t.accts[j] == d.accts[if j < i then j else j + 1])
  {
    var t := RemoveAt(d, i);
    assert forall j :: 0 <= j < |t.accts| ==> t.accts[j] == d.accts[if j < i then j else j + 1];
    forall a | a in t.accts && Derived(a) ensures a.index.value < t.nextIndex {
      var j :| 0 <= j < |t.accts| && t.accts[j] == a;
      assert d.accts[if j < i then j else j + 1] in d.accts;
    }
  }

  // ---- Opening a stored document ----

  datatype StoredDoc = StoredDoc(accts: seq<Acct>, active: Option<int>, nextIndex: Option<nat>, seed: bool)

  function MaxIndex(accts: seq<Acct>): int {
    if accts == [] then -1
    else
      var before, a := MaxIndex(accts[..|accts| - 1]), accts[|accts| - 1];
      if Derived(a) then Max(before, a.index.value) else before
  }

  function Opened(d: StoredDoc): Option<Doc> {
    if d.accts == [] then None
    else
      var active := Min(Max(0, if d.active.Some? then d.active.value else 0), |d.accts| - 1);
      MaxIndexIs(d.accts);
      Some(Doc(d.accts, active, Max(if d.nextIndex.Some? then d.nextIndex.value else 0, MaxIndex(d.accts) + 1), d.seed))
  }

  function Stored(d: Doc): StoredDoc { StoredDoc(d.accts, Some(d.active), Some(d.nextIndex), d.seed) }

  lemma {:induction false} MaxIndexIs(accts: seq<Acct>)
    ensures MaxIndex(accts) >= -1 && forall a :: a in accts && Derived(a) ==> a.index.value <= MaxIndex(accts)
    ensures MaxIndex(accts) == -1 || exists a :: a in accts && Derived(a) && a.index.value == MaxIndex(accts)
  {
    if accts != [] {
      var init, last := accts[..|accts| - 1], accts[|accts| - 1];
      MaxIndexIs(init);
      assert forall a :: a in accts <==> a in init || a == last;
    }
  }

  // Whatever was stored opens with an active account and a next index no derived account has used; what this wallet
  // stored opens as it was.
  lemma {:induction false} OpenedIsGood(d: StoredDoc, g: Doc)
    ensures Opened(d).None? <==> d.accts == []
    ensures Opened(d).Some? ==> 0 <= Opened(d).value.active < |d.accts| && Opened(d).value.accts == d.accts
    ensures Opened(d).Some? ==> forall a :: a in d.accts && Derived(a) ==> a.index.value < Opened(d).value.nextIndex
    ensures Good(g) ==> Opened(Stored(g)) == Some(g)
  {
    MaxIndexIs(d.accts);
    MaxIndexIs(g.accts);
  }

  // ---- The queued writes ----

  // A write: the snapshot it took, how many of the three keys it has put down, and whether it seals a new wallet, which
  // is adopted once they all are.
  datatype Write = Write(doc: Doc, done: nat, adopt: bool)

  datatype Queued = Current | NewWallet(doc: Doc) | Wipe

  datatype State = State(
    mem: Option<Doc>,            // None while locked
    removing: nat,               // removals waiting on their list deletes
    unsaved: bool,               // a removal whose deletes failed, with no write queued since
    waiting: seq<Queued>,
    writing: Option<Write>,
    wiping: Option<nat>,         // a running doReset, and how many of the three keys it has deleted
    lastOk: bool,                // the last write to run put down all three keys, and no doReset ran since
    vault: Option<Doc>,
    mirror: seq<PubAcct>,
    activeKey: int,
    unlocking: seq<Doc>)         // vaults read by unlocks still deriving their key

  datatype Event =
    | Edit(op: Op, derive: nat -> string)
    | Remove(i: nat)             // removeAccount, up to its list deletes
    | Removed(ok: bool)          // they are done, or failed
    | Lock
    | UnlockRead
    | UnlockApply(i: nat)
    | Seal(doc: Doc)             // create, restore, importKey: the new wallet's write is queued
    | WriteStart
    | Wrote(ok: bool)            // the store takes the next key, or fails
    | Reset                      // reset(), after its lock: doReset is queued behind every write
    | Deleted(ok: bool)          // the store deletes doReset's next key, or fails
    | Restart(rehydrate: bool)   // the worker dies; a new one starts locked, or reopens the stored vault from its session

  function Step(s: State, e: Event): State {
    match e
    case Edit(op, derive) =>
      if s.mem.None? || Apply(s.mem.value, op, derive).None? then s
      else s.(mem := Apply(s.mem.value, op, derive), waiting := s.waiting + [Current], unsaved := false)
    case Remove(i) =>
      if s.mem.None? || |s.mem.value.accts| <= 1 || i >= |s.mem.value.accts| then s
      else s.(mem := Some(RemoveAt(s.mem.value, i)), removing := s.removing + 1)
    case Removed(ok) =>
      if s.removing == 0 then s
      else if ok then s.(removing := s.removing - 1, waiting := s.waiting + [Current], unsaved := false)
      else s.(removing := s.removing - 1, unsaved := true)
    case Lock => s.(mem := None)
    case UnlockRead => if s.vault.Some? then s.(unlocking := s.unlocking + [s.vault.value]) else s
    case UnlockApply(i) =>
      if i >= |s.unlocking| then s
      else
        var d, t := Opened(Stored(s.unlocking[i])), s.(unlocking := s.unlocking[..i] + s.unlocking[i + 1..]);
        if d.None? then t else t.(mem := d, waiting := s.waiting + [Current], unsaved := false)
    case Seal(doc) => s.(waiting := s.waiting + [NewWallet(doc)])
    case WriteStart =>
      if s.waiting == [] || s.writing.Some? || s.wiping.Some? then s
      else
        var q, t := s.waiting[0], s.(waiting := s.waiting[1..]);
        if q.Wipe? then t.(wiping := Some(0), lastOk := false)
        else if q.NewWallet? then t.(writing := Some(Write(q.doc, 0, true)))
        else if s.mem.Some? then t.(writing := Some(Write(s.mem.value, 0, false)))
        else t.(lastOk := false)
    case Wrote(ok) =>
      if s.writing.None? then s
      else if !ok then s.(writing := None, lastOk := false)
      else
        var w := s.writing.value;
        if w.done == 0 then s.(vault := Some(w.doc), writing := Some(w.(done := 1)))
        else if w.done == 1 then s.(mirror := MirrorOf(w.doc.accts), writing := Some(w.(done := 2)))
        else
          var t := s.(activeKey := w.doc.active, writing := None, lastOk := true);
          if w.adopt then t.(mem := Some(w.doc), unsaved := false) else t
    case Reset => s.(waiting := s.waiting + [Wipe])
    case Deleted(ok) =>
      if s.wiping.None? then s
      else if !ok then s.(wiping := None)
      else if s.wiping.value == 0 then s.(vault := None, wiping := Some(1))
      else if s.wiping.value == 1 then s.(mirror := [], wiping := Some(2))
      else s.(activeKey := 0, wiping := None)
    case Restart(rehydrate) => Restarted(s, rehydrate)
  }

  function Restarted(s: State, rehydrate: bool): State {
    State(if rehydrate && s.vault.Some? then Opened(Stored(s.vault.value)) else None, 0, false, [], None, None,
          s.lastOk && s.writing.None?, s.vault, s.mirror, s.activeKey, [])
  }

  lemma RestartIs(s: State, rehydrate: bool)
    ensures Step(s, Restart(rehydrate)) == Restarted(s, rehydrate)
  {
  }

  function Run(s: State, es: seq<Event>): State { if es == [] then s else Step(Run(s, es[..|es| - 1]), es[|es| - 1]) }

  // create, restore and importKey seal one account at index 0, or one imported key.
  ghost predicate Proper(e: Event) { e.Seal? ==> Good(e.doc) }

  // The store holds exactly the accounts in memory.
  predicate Saved(s: State) {
    s.mem.Some? && s.vault == s.mem && s.mirror == MirrorOf(s.mem.value.accts) && s.activeKey == s.mem.value.active
  }

  // No write is queued or running, no removal is under way or failed, and the last write landed.
  predicate Quiet(s: State) { s.waiting == [] && s.writing.None? && s.wiping.None? && s.removing == 0 && !s.unsaved && s.lastOk }

  ghost predicate AllGood(s: State) {
    && (s.mem.Some? ==> Good(s.mem.value)) && (s.vault.Some? ==> Good(s.vault.value))
    && (s.writing.Some? ==> Good(s.writing.value.doc))
    && (forall q :: q in s.waiting && q.NewWallet? ==> Good(q.doc))
    && (forall d :: d in s.unlocking ==> Good(d))
  }

  // A running write has put down what it says it has; and when nothing waits behind it, it is writing what is in memory.
  ghost predicate OnItsWay(s: State) {
    && (s.writing.Some? ==>
          && s.writing.value.done <= 2
          && (s.writing.value.done >= 1 ==> s.vault == Some(s.writing.value.doc))
          && (s.writing.value.done == 2 ==> s.mirror == MirrorOf(s.writing.value.doc.accts))
          && (s.waiting == [] && s.removing == 0 && !s.unsaved && s.mem.Some? && !s.writing.value.adopt ==> s.mem.value == s.writing.value.doc))
    && (s.wiping.Some? ==> s.writing.None? && !s.lastOk && s.wiping.value <= 2 && (s.wiping.value >= 1 ==> s.vault.None?))
    && (s.lastOk && s.writing.None? ==> s.vault.Some? && s.mirror == MirrorOf(s.vault.value.accts) && s.activeKey == s.vault.value.active)
    && (Quiet(s) && s.mem.Some? ==> Saved(s))
  }

  lemma {:induction false} EditsKeepGood(s: State, e: Event)
    requires AllGood(s) && (e.Edit? || e.Remove? || e.Removed? || e.Lock?)
    ensures AllGood(Step(s, e))
  {
    hide Good, Apply, RemoveAt;
    match e
    case Edit(op, derive) => if s.mem.Some? && Apply(s.mem.value, op, derive).Some? { ApplyKeeps(s.mem.value, op, derive); }
    case Remove(i) => if s.mem.Some? && |s.mem.value.accts| > 1 && i < |s.mem.value.accts| { RemoveFollows(s.mem.value, i); }
    case _ =>
  }

  lemma {:induction false} StartKeepsGood(s: State)
    requires AllGood(s)
    ensures AllGood(Step(s, WriteStart))
  {
    hide Good;
    if s.waiting != [] {
      assert s.waiting[0] in s.waiting;
      assert forall q :: q in s.waiting[1..] ==> q in s.waiting;
    }
  }

  lemma {:induction false} WrittenKeepsGood(s: State, ok: bool)
    requires AllGood(s)
    ensures AllGood(Step(s, Wrote(ok)))
  {
    hide Good, MirrorOf;
  }

  lemma {:induction false} DeletedKeepsGood(s: State, ok: bool)
    requires AllGood(s)
    ensures AllGood(Step(s, Deleted(ok)))
  {
    hide Good, MirrorOf;
  }

  lemma {:induction false} QueuesKeepGood(s: State, e: Event)
    requires AllGood(s) && Proper(e) && (e.Seal? || e.Reset? || e.UnlockRead?)
    ensures AllGood(Step(s, e))
  {
    hide Good, MirrorOf, Apply, RemoveAt, Opened;
  }

  lemma {:induction false} StepKeepsGood(s: State, e: Event)
    requires AllGood(s) && Proper(e)
    ensures AllGood(Step(s, e))
  {
    hide AllGood, Proper, Step;
    if e.UnlockApply? { UnlockKeepsGood(s, e.i); }
    else if e.Restart? { RestartKeeps(s, e.rehydrate); }
    else if e.Edit? || e.Remove? || e.Removed? || e.Lock? { EditsKeepGood(s, e); }
    else if e.Seal? || e.Reset? || e.UnlockRead? { QueuesKeepGood(s, e); }
    else if e.WriteStart? { StartKeepsGood(s); }
    else if e.Wrote? { WrittenKeepsGood(s, e.ok); }
    else { DeletedKeepsGood(s, e.ok); }
  }

  lemma {:induction false} UnlockKeepsGood(s: State, i: nat)
    requires AllGood(s)
    ensures AllGood(Step(s, UnlockApply(i)))
  {
    hide Good, Apply, RemoveAt, Opened, MirrorOf;
    if i < |s.unlocking| {
      assert s.unlocking[i] in s.unlocking;
      OpenedIsGood(Stored(s.unlocking[i]), s.unlocking[i]);
    }
  }

  lemma {:induction false} RestartKeeps(s: State, rehydrate: bool)
    requires AllGood(s)
    ensures AllGood(Step(s, Restart(rehydrate))) && (OnItsWay(s) ==> OnItsWay(Step(s, Restart(rehydrate))))
  {
    hide Good, MirrorOf, Opened;
    if s.vault.Some? { OpenedIsGood(Stored(s.vault.value), s.vault.value); }
  }

  lemma {:induction false} WritesKeep(s: State, e: Event)
    requires OnItsWay(s) && (e.WriteStart? || e.Wrote? || e.Reset? || e.Deleted?)
    ensures OnItsWay(Step(s, e))
  {
    hide MirrorOf;
  }

  lemma {:induction false} ListsKeep(s: State, e: Event)
    requires OnItsWay(s) && !e.WriteStart? && !e.Wrote? && !e.Reset? && !e.Deleted? && !e.Restart?
    ensures OnItsWay(Step(s, e))
  {
    hide Apply, RemoveAt, Opened, MirrorOf;
  }

  lemma {:induction false} StepKeeps(s: State, e: Event)
    requires AllGood(s) && OnItsWay(s) && Proper(e)
    ensures AllGood(Step(s, e)) && OnItsWay(Step(s, e))
  {
    hide AllGood, OnItsWay, Step;
    StepKeepsGood(s, e);
    if e.Restart? { RestartKeeps(s, e.rehydrate); }
    else if e.WriteStart? || e.Wrote? || e.Reset? || e.Deleted? { WritesKeep(s, e); }
    else { ListsKeep(s, e); }
  }

  lemma {:induction false} RunKeeps(s: State, es: seq<Event>)
    requires AllGood(s) && OnItsWay(s) && forall e :: e in es ==> Proper(e)
    ensures AllGood(Run(s, es)) && OnItsWay(Run(s, es))
  {
    if es != [] {
      var init, e := es[..|es| - 1], es[|es| - 1];
      assert forall x :: x in init ==> x in es;
      assert e in es;
      RunKeeps(s, init);
      StepKeeps(Run(s, init), e);
    }
  }

  // ---- What a store that answers brings about ----

  function ThreeTimes(e: Event): seq<Event> { [e, e, e] }

  lemma RunSnoc(s: State, es: seq<Event>, e: Event)
    ensures Run(s, es + [e]) == Step(Run(s, es), e)
  {
    assert (es + [e])[..|es|] == es;
  }

  lemma RunThree(s: State, es: seq<Event>, start: Event, e: Event)
    ensures Run(s, es + [start] + ThreeTimes(e)) == Step(Step(Step(Step(Run(s, es), start), e), e), e)
  {
    hide Step, Run;
    var a := es + [start];
    assert a + ThreeTimes(e) == a + [e] + [e] + [e];
    RunSnoc(s, es, start);
    RunSnoc(s, a, e);
    RunSnoc(s, a + [e], e);
    RunSnoc(s, a + [e] + [e], e);
  }

  // A write whose turn comes puts down the accounts in memory then, all three keys of them.
  lemma CurrentLands(s: State)
    requires s.writing.None? && s.wiping.None? && s.waiting != [] && s.waiting[0].Current? && s.mem.Some?
    ensures var t, d := Step(Step(Step(Step(s, WriteStart), Wrote(true)), Wrote(true)), Wrote(true)), s.mem.value;
      t == s.(waiting := s.waiting[1..], lastOk := true, vault := Some(d), mirror := MirrorOf(d.accts), activeKey := d.active)
  {
    hide MirrorOf;
  }

  // Three keys for each of n writes.
  function Writes(n: nat): seq<Event> { if n == 0 then [] else Writes(n - 1) + [WriteStart] + ThreeTimes(Wrote(true)) }

  lemma {:induction false} WritesLand(s: State, n: nat)
    requires s.writing.None? && s.wiping.None? && s.mem.Some? && n <= |s.waiting| && forall q :: q in s.waiting ==> q.Current?
    ensures var t := Run(s, Writes(n));
      && t.mem == s.mem && t.waiting == s.waiting[n..] && t.writing.None? && t.wiping.None? && t.removing == s.removing && t.unsaved == s.unsaved
      && (n > 0 ==> t.lastOk && Saved(t))
  {
    hide Step, MirrorOf;
    if n > 0 {
      WritesLand(s, n - 1);
      RunThree(s, Writes(n - 1), WriteStart, Wrote(true));
      var t := Run(s, Writes(n - 1));
      assert t.waiting[0] == s.waiting[n - 1] && t.waiting[1..] == s.waiting[n..];
      assert t.waiting[0] in s.waiting;
      CurrentLands(t);
    }
  }

  // After any edit of an open wallet, writes that land leave vault, mirror and active key as the accounts in memory, with
  // nothing left to write.
  lemma EditIsSaved(s: State, op: Op, derive: nat -> string)
    requires s.mem.Some? && s.writing.None? && s.wiping.None? && s.removing == 0 && Apply(s.mem.value, op, derive).Some?
    requires forall q :: q in s.waiting ==> q.Current?
    ensures var t := Run(Step(s, Edit(op, derive)), Writes(|s.waiting| + 1));
      t.mem == Apply(s.mem.value, op, derive) && Quiet(t) && Saved(t)
  {
    hide MirrorOf, Apply;
    WritesLand(Step(s, Edit(op, derive)), |s.waiting| + 1);
  }

  // So does a removal once its lists are deleted.
  lemma RemovalIsSaved(s: State, i: nat)
    requires s.mem.Some? && s.writing.None? && s.wiping.None? && s.removing == 0 && i < |s.mem.value.accts| && |s.mem.value.accts| > 1
    requires forall q :: q in s.waiting ==> q.Current?
    ensures var t := Run(Step(Step(s, Remove(i)), Removed(true)), Writes(|s.waiting| + 1));
      t.mem == Some(RemoveAt(s.mem.value, i)) && Quiet(t) && Saved(t)
  {
    hide MirrorOf, RemoveAt;
    WritesLand(Step(Step(s, Remove(i)), Removed(true)), |s.waiting| + 1);
  }

  // A new wallet is open once its three keys are down, and saved; before that it is not.
  lemma SealOpens(s: State, doc: Doc)
    requires s.writing.None? && s.wiping.None? && s.waiting == []
    ensures var one := Step(Step(Step(s, Seal(doc)), WriteStart), Wrote(true));
      && one.mem == s.mem && Step(one, Wrote(true)).mem == s.mem && one.vault == Some(doc)
      && var t := Step(Step(one, Wrote(true)), Wrote(true));
      t.mem == Some(doc) && t.lastOk && !t.unsaved && Saved(t) && t.waiting == [] && t.writing.None?
    ensures Step(Step(Step(s, Seal(doc)), WriteStart), Wrote(false)) == s.(lastOk := false)
  {
    hide MirrorOf;
  }

  // An unlock opens what the vault held when it was read, as it was, and queues a write.
  lemma UnlockOpens(s: State)
    requires s.vault.Some? && Good(s.vault.value)
    ensures var t := Step(Step(s, UnlockRead), UnlockApply(|s.unlocking|));
      t.mem == s.vault && t.unlocking == s.unlocking && t.waiting == s.waiting + [Current] && t.vault == s.vault
    ensures Step(s, Lock) == s.(mem := None)
  {
    OpenedIsGood(Stored(s.vault.value), s.vault.value);
    hide Opened;
    var u := Step(s, UnlockRead);
    assert u.unlocking[..|s.unlocking|] + u.unlocking[|s.unlocking| + 1..] == s.unlocking;
  }

  // A worker that dies with everything saved and reopens its session loses nothing.
  lemma RestartLosesNothing(s: State)
    requires AllGood(s) && Quiet(s) && Saved(s)
    ensures var t := Step(s, Restart(true)); t.mem == s.mem && Quiet(t) && Saved(t)
    ensures Step(s, Restart(false)).mem == None && Step(s, Restart(false)).vault == s.vault
  {
    OpenedIsGood(Stored(s.vault.value), s.vault.value);
    hide Opened, MirrorOf, Good;
  }

  // A reset whose turn comes and whose deletes land leaves no vault, no mirror and no active key; one that fails ends it.
  lemma ResetErases(s: State)
    requires s.writing.None? && s.wiping.None? && s.waiting != [] && s.waiting[0].Wipe?
    ensures Step(Step(Step(Step(s, WriteStart), Deleted(true)), Deleted(true)), Deleted(true))
      == s.(waiting := s.waiting[1..], lastOk := false, vault := None, mirror := [], activeKey := 0)
    ensures Step(Step(s, WriteStart), Deleted(false)) == s.(waiting := s.waiting[1..], lastOk := false)
  {
  }

  // A queued write that finds the wallet locked writes nothing, and one at a time runs.
  lemma LockedWritesNothing(s: State)
    requires s.mem.None? && s.writing.None? && s.wiping.None? && s.waiting != [] && s.waiting[0].Current?
    ensures Step(s, WriteStart) == s.(waiting := s.waiting[1..], lastOk := false)
  {
  }

  lemma OneAtATime(s: State)
    requires s.writing.Some? || s.wiping.Some? || s.waiting == []
    ensures Step(s, WriteStart) == s
  {
  }

  const FIRST: State := StartOn(None, [], 0)

  // A new worker over whatever an earlier one stored, whole or not.
  function StartOn(vault: Option<Doc>, mirror: seq<PubAcct>, activeKey: int): State {
    State(None, 0, false, [], None, None, false, vault, mirror, activeKey, [])
  }

  // Over every run, from any store with a well formed vault or none: the accounts in memory and in the vault are well
  // formed, and once the queue is quiet the vault, the mirror and the active key are those of the accounts in memory.
  lemma QuietMeansSaved(vault: Option<Doc>, mirror: seq<PubAcct>, activeKey: int, es: seq<Event>)
    requires (vault.Some? ==> Good(vault.value)) && forall e :: e in es ==> Proper(e)
    ensures var s := Run(StartOn(vault, mirror, activeKey), es);
      && (s.mem.Some? ==> Good(s.mem.value)) && (s.vault.Some? ==> Good(s.vault.value))
      && (Quiet(s) && s.mem.Some? ==> Saved(s))
  {
    RunKeeps(StartOn(vault, mirror, activeKey), es);
  }

  // A removal whose list deletes fail queues no write: the account is gone from memory and still in the vault, and the
  // next unlock brings it back.
  lemma FailedRemovalComesBack(s: State, i: nat)
    requires AllGood(s) && OnItsWay(s) && Quiet(s) && s.mem.Some? && |s.mem.value.accts| > 1 && i < |s.mem.value.accts| && s.unlocking == []
    ensures var t := Step(Step(s, Remove(i)), Removed(false));
      && t.waiting == [] && t.writing.None? && t.removing == 0 && !Saved(t)
      && Step(Step(Step(t, Lock), UnlockRead), UnlockApply(0)).mem == s.mem
  {
    hide Good, MirrorOf;
    OpenedIsGood(Stored(s.mem.value), s.mem.value);
    assert |RemoveAt(s.mem.value, i).accts| < |s.mem.value.accts|;
  }

  // ---- A reset ----

  ghost predicate NoSeal(es: seq<Event>) { forall e :: e in es ==> !e.Seal? }

  predicate NoNewWallet(s: State) { forall q :: q in s.waiting ==> !q.NewWallet? }

  // No vault, locked, and nothing that could bring either back.
  predicate Blank(s: State) { s.vault.None? && s.mem.None? && s.unlocking == [] && s.writing.None? && NoNewWallet(s) }

  lemma {:induction false} StaysBlank(s: State, e: Event)
    requires Blank(s) && !e.Seal?
    ensures Blank(Step(s, e))
  {
    hide Apply, RemoveAt, Opened, MirrorOf;
    if e.WriteStart? && s.waiting != [] { assert s.waiting[0] in s.waiting; }
  }

  lemma {:induction false} ResetStays(s: State, es: seq<Event>)
    requires Blank(s) && NoSeal(es)
    ensures Blank(Run(s, es))
  {
    if es != [] {
      assert forall x :: x in es[..|es| - 1] ==> x in es;
      assert es[|es| - 1] in es;
      ResetStays(s, es[..|es| - 1]);
      StaysBlank(Run(s, es[..|es| - 1]), es[|es| - 1]);
    }
  }

  predicate Gone(s: State) { s.vault.None? && s.mem.None? }

  // When doReset's last delete lands: no run brings a vault or an unlocked wallet back, but by sealing a new one, exactly
  // when the wallet is locked by then and no unlock has read the old vault and is still deriving its key.
  lemma ResetIsFinalIff(s: State)
    requires AllGood(s) && OnItsWay(s) && s.wiping == Some(2) && NoNewWallet(s)
    ensures (forall es :: NoSeal(es) ==> Gone(Run(Step(s, Deleted(true)), es))) <==> s.mem.None? && s.unlocking == []
  {
    hide MirrorOf, Good, Opened;
    var t := Step(s, Deleted(true));
    if s.mem.None? && s.unlocking == [] {
      assert Blank(t);
      forall es | NoSeal(es) ensures Gone(Run(t, es)) { ResetStays(t, es); }
    } else if s.mem.Some? {
      assert NoSeal([]) && Run(t, []) == t && !Gone(t);
    } else {
      var es := [UnlockApply(0)];
      assert es[..0] == [] && Run(t, []) == t && Run(t, es) == Step(t, UnlockApply(0));
      assert s.unlocking[0] in s.unlocking;
      OpenedIsGood(Stored(s.unlocking[0]), s.unlocking[0]);
      assert NoSeal(es) && !Gone(Run(t, es));
    }
  }

  // And such an unlock writes the old vault back.
  lemma UnlockRestoresVault(s: State)
    requires AllGood(s) && OnItsWay(s) && s.wiping == Some(2) && s.waiting == [] && s.unlocking != []
    ensures var t := Step(Step(Step(Step(s, Deleted(true)), UnlockApply(0)), WriteStart), Wrote(true));
      t.vault == Some(s.unlocking[0]) && t.mem == Some(s.unlocking[0])
  {
    hide MirrorOf, Good, Opened;
    assert s.unlocking[0] in s.unlocking;
    OpenedIsGood(Stored(s.unlocking[0]), s.unlocking[0]);
  }

  // Before the reset has run: locked, no unlock in flight, no new wallet being sealed.
  predicate Shut(s: State) { s.mem.None? && s.unlocking == [] && NoNewWallet(s) && (s.writing.Some? ==> !s.writing.value.adopt) }

  predicate Quieting(e: Event) { !e.Seal? && !e.UnlockRead? && !e.Restart? }

  lemma {:induction false} StaysShut(s: State, es: seq<Event>)
    requires Shut(s) && forall e :: e in es ==> Quieting(e)
    ensures Shut(Run(s, es))
  {
    if es != [] {
      assert forall x :: x in es[..|es| - 1] ==> x in es;
      assert es[|es| - 1] in es;
      StaysShut(s, es[..|es| - 1]);
      StepsShut(Run(s, es[..|es| - 1]), es[|es| - 1]);
    }
  }

  lemma {:induction false} StepsShut(s: State, e: Event)
    requires Shut(s) && Quieting(e)
    ensures Shut(Step(s, e))
  {
    hide Apply, RemoveAt, Opened, MirrorOf;
    if e.WriteStart? && s.waiting != [] { assert s.waiting[0] in s.waiting; }
  }

  // From any reachable state with no unlock and no sealing in flight: after the lock and the reset, whatever writes were
  // queued before it, once its last delete lands the wallet has no vault and stays locked until a new one is sealed.
  lemma {:induction false} ResetIsFinal(s: State, before: seq<Event>, after: seq<Event>)
    requires AllGood(s) && OnItsWay(s) && Shut(Step(s, Lock)) && (forall e :: e in before ==> Quieting(e)) && NoSeal(after)
    requires Run(Step(Step(s, Lock), Reset), before).wiping == Some(2)
    ensures Blank(Run(Step(Run(Step(Step(s, Lock), Reset), before), Deleted(true)), after))
  {
    hide MirrorOf, Good, Opened;
    var t := Step(Step(s, Lock), Reset);
    assert Shut(t);
    assert AllGood(t) && OnItsWay(t) by { StepKeeps(s, Lock); StepKeeps(Step(s, Lock), Reset); }
    assert forall e :: e in before ==> Proper(e) by { assert forall e :: e in before ==> Quieting(e); }
    RunKeeps(t, before);
    StaysShut(t, before);
    ResetStays(Step(Run(t, before), Deleted(true)), after);
  }

  // ---- The wallet's fields, one method a section between two awaits ----

  class Wallet {
    var accts: Option<seq<Acct>>
    var active: int
    var nextIndex: nat
    var seed: bool
    var removing: nat
    ghost var unsaved: bool
    var waiting: seq<Queued>         // persistChain's writes not started yet
    var writing: Option<Write>
    var wiping: Option<nat>
    ghost var lastOk: bool
    var vault: Option<Doc>
    var mirror: seq<PubAcct>
    var activeKey: int
    var unlocking: seq<Doc>

    ghost function Mem(): Option<Doc> reads `accts, `active, `nextIndex, `seed {
      if accts.None? then None else Some(Doc(accts.value, active, nextIndex, seed))
    }

    ghost function Now(): State reads this {
      State(Mem(), removing, unsaved, waiting, writing, wiping, lastOk, vault, mirror, activeKey, unlocking)
    }

    constructor ()
      ensures Now() == FIRST
    {
      accts, active, nextIndex, seed, removing, unsaved := None, 0, 0, false, 0, false;
      waiting, writing, wiping, lastOk, vault, mirror, activeKey, unlocking := [], None, None, false, None, [], 0, [];
    }

    method PersistVault()
      modifies `waiting, `unsaved
      ensures waiting == old(waiting) + [Current] && !unsaved
    {
      waiting, unsaved := waiting + [Current], false;
    }

    method AddAccount(name: string, random: string, derive: nat -> string)
      modifies this
      ensures Now() == Step(old(Now()), Edit(Add(name, random), derive))
      ensures old(accts).None? ==> unchanged(this)
      ensures old(accts).Some? ==>
        && accts.Some? && |accts.value| == |old(accts).value| + 1 && accts.value[..|old(accts).value|] == old(accts).value
        && active == |old(accts).value| && waiting == old(waiting) + [Current] && seed == old(seed)
        && accts.value[active] == (if seed then Acct(derive(old(nextIndex)), name, Some(old(nextIndex)), false) else Acct(random, name, None, true))
        && nextIndex == old(nextIndex) + if seed then 1 else 0
    {
      if accts.None? { return; }
      var a := if seed then Acct(derive(nextIndex), name, Some(nextIndex), false) else Acct(random, name, None, true);
      if seed { nextIndex := nextIndex + 1; }
      active := |accts.value|;
      accts := Some(accts.value + [a]);
      PersistVault();
    }

    method ImportAccount(addr: string, name: string, derive: nat -> string)
      modifies this
      ensures Now() == Step(old(Now()), Edit(Import(addr, name), derive))
      ensures old(accts).None? || (exists a :: a in old(accts).value && LowerCase(a.addr) == LowerCase(addr)) ==> unchanged(this)
      ensures old(accts).Some? && (forall a :: a in old(accts).value ==> LowerCase(a.addr) != LowerCase(addr)) ==>
        accts == Some(old(accts).value + [Acct(addr, name, None, true)]) && active == |old(accts).value| && waiting == old(waiting) + [Current] && nextIndex == old(nextIndex)
    {
      if accts.None? { return; }
      IndexIs(accts.value, addr, 0);
      if IndexOf(accts.value, addr) >= 0 { return; }
      active := |accts.value|;
      accts := Some(accts.value + [Acct(addr, name, None, true)]);
      PersistVault();
    }

    method SwitchAccount(i: int, derive: nat -> string)
      modifies this
      ensures Now() == Step(old(Now()), Edit(SwitchTo(i), derive))
      ensures old(accts).None? || !(0 <= i < |old(accts).value|) ==> unchanged(this)
      ensures old(accts).Some? && 0 <= i < |old(accts).value| ==> active == i && accts == old(accts) && waiting == old(waiting) + [Current]
    {
      if accts.None? || i < 0 || i >= |accts.value| { return; }
      active := i;
      PersistVault();
    }

    method RenameAccount(addr: string, name: string, derive: nat -> string)
      modifies this
      ensures Now() == Step(old(Now()), Edit(Rename(addr, name), derive))
      ensures old(accts).None? || (forall a :: a in old(accts).value ==> LowerCase(a.addr) != LowerCase(addr)) ==> unchanged(this)
      ensures old(accts).Some? && (exists a :: a in old(accts).value && LowerCase(a.addr) == LowerCase(addr)) ==>
        && active == old(active) && waiting == old(waiting) + [Current] && accts.Some? && |accts.value| == |old(accts).value|
        && forall j :: 0 <= j < |accts.value| ==> var was := old(accts).value[j];
             accts.value[j] == if LowerCase(was.addr) == LowerCase(addr) && NoneAt(old(accts).value[..j], addr) then was.(name := name) else was
    {
      if accts.None? { return; }
      IndexIs(accts.value, addr, 0);
      var i := IndexOf(accts.value, addr);
      if i < 0 { return; }
      accts := Some(accts.value[i := accts.value[i].(name := name)]);
      PersistVault();
    }

    method RemoveAccount(i: nat)
      modifies this
      ensures Now() == Step(old(Now()), Remove(i))
      ensures old(accts).None? || |old(accts).value| <= 1 || i >= |old(accts).value| ==> unchanged(this)
      ensures old(accts).Some? && |old(accts).value| > 1 && i < |old(accts).value| ==>
        accts == Some(old(accts).value[..i] + old(accts).value[i + 1..]) && waiting == old(waiting) && removing == old(removing) + 1
    {
      if accts.None? || |accts.value| <= 1 || i >= |accts.value| { return; }
      accts := Some(accts.value[..i] + accts.value[i + 1..]);
      if active >= |accts.value| { active := |accts.value| - 1; } else if active > i { active := active - 1; }
      removing := removing + 1;
    }

    // removeAccount after its list deletes; a delete that throws ends it before the vault is written.
    method ListsDeleted(ok: bool)
      modifies this
      ensures Now() == Step(old(Now()), Removed(ok))
    {
      if removing == 0 { return; }
      removing := removing - 1;
      if ok { PersistVault(); } else { unsaved := true; }
    }

    static method MaxIndexOf(accts: seq<Acct>) returns (m: int)
      ensures m == MaxIndex(accts)
    {
      m := -1;
      for j := 0 to |accts|
        invariant m == MaxIndex(accts[..j])
      {
        assert accts[..j + 1][..j] == accts[..j];
        if Derived(accts[j]) { m := Max(m, accts[j].index.value); }
      }
      assert accts[..|accts|] == accts;
    }

    // applyDoc: a document with no account is refused; `active` is clamped and the next index recomputed.
    static method Open(d: Doc) returns (o: Option<Doc>)
      ensures o == Opened(Stored(d))
    {
      hide MaxIndex, Derived;
      if d.accts == [] { return None; }
      var maxIdx := MaxIndexOf(d.accts);
      MaxIndexIs(d.accts);
      o := Some(Doc(d.accts, Min(Max(0, d.active), |d.accts| - 1), Max(d.nextIndex, maxIdx + 1), d.seed));
    }

    // The end of an unlock, and the write it queues.
    method UnlockWith(i: nat)
      modifies this
      ensures Now() == Step(old(Now()), UnlockApply(i))
    {
      hide Opened;
      if i >= |unlocking| { return; }
      var d := Open(unlocking[i]);
      unlocking := unlocking[..i] + unlocking[i + 1..];
      if d.None? { return; }
      accts, active, nextIndex, seed := Some(d.value.accts), d.value.active, d.value.nextIndex, d.value.seed;
      PersistVault();
    }

    // doPersistVault and writeVault: the snapshot when the write's turn comes, then one key at a time.
    method StartWrite()
      modifies this
      ensures Now() == Step(old(Now()), WriteStart)
    {
      if waiting == [] || writing.Some? || wiping.Some? { return; }
      var q := waiting[0];
      waiting := waiting[1..];
      match q
      case Wipe => wiping, lastOk := Some(0), false;
      case NewWallet(doc) => writing := Some(Write(doc, 0, true));
      case Current =>
        if accts.None? { lastOk := false; return; }
        writing := Some(Write(Doc(accts.value, active, nextIndex, seed), 0, false));
    }

    method KeyWritten(ok: bool)
      modifies this
      ensures Now() == Step(old(Now()), Wrote(ok))
    {
      hide MirrorOf, Apply, RemoveAt, Opened, IndexOf;
      if writing.None? { return; }
      if !ok { writing, lastOk := None, false; return; }
      var w := writing.value;
      if w.done == 0 { vault, writing := Some(w.doc), Some(w.(done := 1)); }
      else if w.done == 1 { mirror, writing := MirrorOf(w.doc.accts), Some(w.(done := 2)); }
      else {
        activeKey, writing, lastOk := w.doc.active, None, true;
        if w.adopt {
          accts, active, nextIndex, seed, unsaved := Some(w.doc.accts), w.doc.active, w.doc.nextIndex, w.doc.seed, false;
        }
      }
    }

    method LockWallet()
      modifies this
      ensures Now() == Step(old(Now()), Lock)
    {
      accts, seed, nextIndex := None, false, 0;
    }

    // reset(), once it is locked: doReset goes behind every queued write.
    method ResetWallet()
      modifies `waiting
      ensures Now() == Step(old(Now()), Reset)
    {
      waiting := waiting + [Wipe];
    }

    method KeyDeleted(ok: bool)
      modifies this
      ensures Now() == Step(old(Now()), Deleted(ok))
    {
      if wiping.None? { return; }
      if !ok { wiping := None; return; }
      if wiping.value == 0 { vault, wiping := None, Some(1); }
      else if wiping.value == 1 { mirror, wiping := [], Some(2); }
      else { activeKey, wiping := 0, None; }
    }

    // A new worker: nothing in memory but what rehydrateSession reopens, and it queues no write.
    method RestartWorker(rehydrate: bool)
      modifies this
      ensures Now() == Step(old(Now()), Restart(rehydrate))
    {
      hide Opened, Step;
      RestartIs(Now(), rehydrate);
      lastOk := lastOk && writing.None?;
      removing, unsaved, waiting, writing, wiping, unlocking := 0, false, [], None, None, [];
      accts := None;
      if rehydrate && vault.Some? { Reopen(vault.value); }
    }

    method Reopen(d: Doc)
      requires accts.None?
      modifies `accts, `active, `nextIndex, `seed
      ensures Mem() == Opened(Stored(d))
    {
      hide Opened;
      var o := Open(d);
      if o.Some? { accts, active, nextIndex, seed := Some(o.value.accts), o.value.active, o.value.nextIndex, o.value.seed; }
    }
  }

  // ---- The keys a reset deletes ----

  function HistKey(addr: string): string { "txHistory:" + addr }

  function SealKey(addr: string): string { "sealedClaims:" + addr }

  const RESET_KEYS: seq<string> := ["vault", "wallets", "active", "addr", "txHistory", "sealedClaims", "pendingContent"]

  function ListKeys(wallets: seq<PubAcct>): seq<string> {
    if wallets == [] then [] else ListKeys(wallets[..|wallets| - 1]) + [HistKey(wallets[|wallets| - 1].addr), SealKey(wallets[|wallets| - 1].addr)]
  }

  function DeleteOrder(wallets: seq<PubAcct>): seq<string> { ListKeys(wallets) + RESET_KEYS }

  function Elems(ks: seq<string>): set<string> { set k | k in ks }

  // doReset: the lists of the accounts the mirror names, then the wallet's own keys; it ends at the first delete that
  // fails, the one after `good` of them.
  method DoReset<V>(store: map<string, V>, wallets: seq<PubAcct>, good: nat) returns (left: map<string, V>, ok: bool)
    ensures ok <==> good >= |DeleteOrder(wallets)|
    ensures left == store - Elems(DeleteOrder(wallets)[..Min(good, |DeleteOrder(wallets)|)])
  {
    left := store;
    var done: nat := 0;
    ghost var order := DeleteOrder(wallets);
    assert left == store - Elems(order[..0]);
    for i := 0 to |wallets|
      invariant done == 2 * i == |ListKeys(wallets[..i])| && done <= good && done <= |order|
      invariant left == store - Elems(order[..done])
    {
      PairNext(wallets, i);
      if done == good { return left, false; }
      left := DeleteNext(store, left, order, done, HistKey(wallets[i].addr));
      if done + 1 == good { return left, false; }
      left := DeleteNext(store, left, order, done + 1, SealKey(wallets[i].addr));
      done := done + 2;
    }
    assert wallets[..|wallets|] == wallets;
    for i := 0 to |RESET_KEYS|
      invariant done == |ListKeys(wallets)| + i && done <= good
      invariant left == store - Elems(order[..done])
    {
      if done == good { return left, false; }
      left := DeleteNext(store, left, order, done, RESET_KEYS[i]);
      done := done + 1;
    }
    ok := true;
  }

  method DeleteNext<V>(ghost store: map<string, V>, left: map<string, V>, ghost order: seq<string>, ghost done: nat, k: string) returns (t: map<string, V>)
    requires done < |order| && order[done] == k && left == store - Elems(order[..done])
    ensures t == store - Elems(order[..done + 1])
  {
    assert order[..done + 1] == order[..done] + [k];
    assert Elems(order[..done + 1]) == Elems(order[..done]) + {k};
    t := left - {k};
  }

  lemma {:induction false} ListKeysGrow(wallets: seq<PubAcct>, i: nat)
    requires i <= |wallets|
    ensures |ListKeys(wallets[..i])| == 2 * i && ListKeys(wallets[..i]) <= ListKeys(wallets)
    decreases |wallets|
  {
    if i == |wallets| {
      assert wallets[..i] == wallets;
      if i > 0 { ListKeysGrow(wallets[..i - 1], i - 1); assert wallets[..i - 1][..i - 1] == wallets[..i - 1]; }
    } else {
      ListKeysGrow(wallets[..|wallets| - 1], i);
      assert wallets[..|wallets| - 1][..i] == wallets[..i];
    }
  }

  lemma PairNext(wallets: seq<PubAcct>, i: nat)
    requires i < |wallets|
    ensures |ListKeys(wallets[..i + 1])| == 2 * i + 2 <= |ListKeys(wallets)|
    ensures DeleteOrder(wallets)[2 * i] == HistKey(wallets[i].addr) && DeleteOrder(wallets)[2 * i + 1] == SealKey(wallets[i].addr)
  {
    ListKeysGrow(wallets, i);
    ListKeysGrow(wallets, i + 1);
    assert wallets[..i + 1][..i] == wallets[..i];
  }

  lemma {:induction false} ListKeysNames(wallets: seq<PubAcct>, addr: string)
    ensures HistKey(addr) in ListKeys(wallets) <==> exists w :: w in wallets && w.addr == addr
    ensures SealKey(addr) in ListKeys(wallets) <==> exists w :: w in wallets && w.addr == addr
  {
    if wallets != [] {
      var init, w := wallets[..|wallets| - 1], wallets[|wallets| - 1];
      ListKeysNames(init, addr);
      assert forall x :: x in wallets <==> x in init || x == w;
      assert HistKey(w.addr)[10..] == w.addr && HistKey(addr)[10..] == addr;
      assert SealKey(w.addr)[13..] == w.addr && SealKey(addr)[13..] == addr;
      assert HistKey(w.addr)[0] == 't' && SealKey(w.addr)[0] == 's' && HistKey(addr)[0] == 't' && SealKey(addr)[0] == 's';
    }
  }

  // Where every delete lands, a list survives exactly when the mirror the reset read does not name its account.
  lemma ResetLeavesUnmirrored<V>(store: map<string, V>, wallets: seq<PubAcct>, addr: string)
    ensures var left := store - Elems(DeleteOrder(wallets));
      && (HistKey(addr) in left <==> HistKey(addr) in store && forall w :: w in wallets ==> w.addr != addr)
      && (SealKey(addr) in left <==> SealKey(addr) in store && forall w :: w in wallets ==> w.addr != addr)
      && (forall k :: k in RESET_KEYS ==> k !in left)
  {
    ListKeysNames(wallets, addr);
    KeysAreLists(addr);
  }

  lemma KeysAreLists(addr: string)
    ensures HistKey(addr) !in RESET_KEYS && SealKey(addr) !in RESET_KEYS
  {
    assert |HistKey(addr)| >= 10 && HistKey(addr)[9] == ':' && |SealKey(addr)| >= 13 && SealKey(addr)[12] == ':';
  }

  // A wallet whose writes have all landed names every account it holds, so a reset deletes all their lists.
  lemma SavedResetDeletesAll(s: State, a: Acct)
    requires Saved(s) && a in s.mem.value.accts
    ensures HistKey(a.addr) in Elems(DeleteOrder(s.mirror)) && SealKey(a.addr) in Elems(DeleteOrder(s.mirror))
  {
    ListKeysNames(s.mirror, a.addr);
    var i :| 0 <= i < |s.mem.value.accts| && s.mem.value.accts[i] == a;
    assert s.mirror[i].addr == a.addr && s.mirror[i] in s.mirror;
  }

  // And such an account comes about: import a key and let the vault's write land and the mirror's fail. The account is in
  // memory and sealed, and a reset that reads the mirror now deletes neither of its lists.
  lemma MirrorLags<V>(s: State, addr: string, name: string, derive: nat -> string, store: map<string, V>)
    requires AllGood(s) && OnItsWay(s) && Quiet(s) && s.mem.Some? && IndexOf(s.mem.value.accts, addr) < 0
    ensures var t := Step(Step(Step(Step(s, Edit(Import(addr, name), derive)), WriteStart), Wrote(true)), Wrote(false));
      && t.mem.Some? && t.vault == t.mem && t.waiting == [] && t.writing.None?
      && t.mem.value.accts == s.mem.value.accts + [Acct(addr, name, None, true)]
      && var left := store - Elems(DeleteOrder(t.mirror));
      && (HistKey(addr) in left <==> HistKey(addr) in store) && (SealKey(addr) in left <==> SealKey(addr) in store)
  {
    hide Good;
    NotFoundIs(s.mem.value.accts, addr, 0);
    assert forall w :: w in s.mirror ==> w.addr != addr;
    ResetLeavesUnmirrored(store, s.mirror, addr);
    hide ListKeys, Elems, DeleteOrder;
  }

  lemma {:induction false} NotFoundIs(accts: seq<Acct>, addr: string, k: nat)
    requires k <= |accts| && IndexFrom(accts, addr, k) < 0
    ensures forall i :: k <= i < |accts| ==> accts[i].addr != addr
    decreases |accts| - k
  {
    if k < |accts| { NotFoundIs(accts, addr, k + 1); }
  }
}
