// The promise-chain idiom: a field holds a promise that always resolves; each call runs its work after it, whether it
// was fulfilled or rejected, and the field becomes the settlement of that run. The wallet keeps three such chains, and a
// reset waits on all three and becomes the tail of each.

module Chains {
  import opened Base

  datatype Chain = PersistChain | HistChain | SealChain

  datatype Status = Waiting | Running | Done(ok: bool)

  // `after`: the runs whose settlement this one was chained behind.
  datatype Job = Job(chains: set<Chain>, after: set<nat>, status: Status)

  datatype State = State(jobs: seq<Job>, tails: map<Chain, nat>)

  datatype Event = Call(c: Chain) | Reset | Start(i: nat) | Settle(i: nat, ok: bool)

  const ALL: set<Chain> := {PersistChain, HistChain, SealChain}

  function Tails(s: State, cs: set<Chain>): set<nat> { set c | c in cs && c in s.tails :: s.tails[c] }

  function Queue(s: State, cs: set<Chain>): State {
    State(s.jobs + [Job(cs, Tails(s, cs), Waiting)], map c | c in s.tails.Keys + cs :: if c in cs then |s.jobs| else s.tails[c])
  }

  predicate Ready(s: State, i: nat) {
    i < |s.jobs| && s.jobs[i].status.Waiting? && forall p :: p in s.jobs[i].after ==> p < |s.jobs| && s.jobs[p].status.Done?
  }

  // Work starts once everything it was chained behind is settled, either way.
  function Step(s: State, e: Event): State {
    match e
    case Call(c) => Queue(s, {c})
    case Reset => Queue(s, ALL)
    case Start(i) => if Ready(s, i) then s.(jobs := s.jobs[i := s.jobs[i].(status := Running)]) else s
    case Settle(i, ok) =>
      if i < |s.jobs| && s.jobs[i].status.Running? then s.(jobs := s.jobs[i := s.jobs[i].(status := Done(ok))]) else s
  }

  function Run(es: seq<Event>): State { if es == [] then State([], map[]) else Step(Run(es[..|es| - 1]), es[|es| - 1]) }

  predicate On(s: State, i: int, c: Chain) { 0 <= i < |s.jobs| && c in s.jobs[i].chains }

  // Each run is behind the last earlier run of each of its chains.
  ghost predicate Linked(s: State) {
    && (forall c :: c in s.tails ==> On(s, s.tails[c], c))
    && (forall i, c :: On(s, i, c) ==> c in s.tails && i <= s.tails[c])
    && (forall j, p :: 0 <= j < |s.jobs| && p in s.jobs[j].after ==> p < j)
    && (forall i, j, c :: On(s, i, c) && On(s, j, c) && i < j ==> Behind(s, j, i, c))
  }

  ghost predicate Behind(s: State, j: int, i: int, c: Chain)
    requires 0 <= j < |s.jobs|
  {
    exists p :: p in s.jobs[j].after && i <= p && On(s, p, c)
  }

  // The runs of one chain start in call order, each after every earlier one is settled.
  ghost predicate InOrder(s: State) {
    forall i, j, c :: On(s, i, c) && On(s, j, c) && i < j && !s.jobs[j].status.Waiting? ==> s.jobs[i].status.Done?
  }

  lemma {:induction false} QueueLinks(s: State, cs: set<Chain>)
    requires Linked(s) && InOrder(s)
    ensures Linked(Queue(s, cs)) && InOrder(Queue(s, cs))
  {
    var t, n := Queue(s, cs), |s.jobs|;
    forall i, c | On(t, i, c) ensures i < n ==> On(s, i, c) && c in s.tails && i <= s.tails[c] { if i < n { assert On(s, i, c); } }
    forall i, j, c | On(t, i, c) && On(t, j, c) && i < j ensures Behind(t, j, i, c) {
      if j < n {
        assert Behind(s, j, i, c);
        var p :| p in s.jobs[j].after && i <= p && On(s, p, c);
        assert p in t.jobs[j].after && On(t, p, c);
      } else {
        assert s.tails[c] in t.jobs[n].after && On(t, s.tails[c], c);
      }
    }
  }

  lemma {:induction false} StartKeeps(s: State, k: nat)
    requires Linked(s) && InOrder(s)
    ensures Linked(Step(s, Start(k))) && InOrder(Step(s, Start(k)))
  {
    var t := Step(s, Start(k));
    Restatus(s, t);
    if Ready(s, k) {
      forall i, j, c | On(t, i, c) && On(t, j, c) && i < j && !t.jobs[j].status.Waiting? ensures t.jobs[i].status.Done? {
        assert On(s, i, c) && On(s, j, c) && Behind(s, j, i, c);
        if j == k {
          var p :| p in s.jobs[k].after && i <= p && On(s, p, c);
        }
      }
    }
  }

  // Only a status changed.
  lemma {:induction false} Restatus(s: State, t: State)
    requires Linked(s) && t.tails == s.tails && |t.jobs| == |s.jobs|
    requires forall i :: 0 <= i < |s.jobs| ==> t.jobs[i].chains == s.jobs[i].chains && t.jobs[i].after == s.jobs[i].after
    ensures Linked(t)
  {
    forall i, c ensures On(t, i, c) == On(s, i, c) { }
    forall i, j, c | On(t, i, c) && On(t, j, c) && i < j ensures Behind(t, j, i, c) {
      assert Behind(s, j, i, c);
      var p :| p in s.jobs[j].after && i <= p && On(s, p, c);
      assert p in t.jobs[j].after && On(t, p, c);
    }
  }

  lemma {:induction false} RunKeeps(es: seq<Event>)
    ensures Linked(Run(es)) && InOrder(Run(es))
  {
    if es != [] {
      var s, e := Run(es[..|es| - 1]), es[|es| - 1];
      RunKeeps(es[..|es| - 1]);
      match e
      case Call(c) => QueueLinks(s, {c});
      case Reset => QueueLinks(s, ALL);
      case Start(i) => StartKeeps(s, i);
      case Settle(i, ok) =>
        Restatus(s, Step(s, e));
        assert forall k, c :: On(Step(s, e), k, c) ==> On(s, k, c);
    }
  }

  // Two runs of one chain never overlap, and the later one starts only once the earlier one is settled. A reset is a run
  // of all three: everything called before it is settled when it starts, and nothing called after it starts before it
  // is settled.
  lemma CallsRunInOrder(es: seq<Event>, c: Chain, i: int, j: int)
    requires On(Run(es), i, c) && On(Run(es), j, c) && i < j
    ensures !(Run(es).jobs[i].status.Running? && Run(es).jobs[j].status.Running?)
    ensures !Run(es).jobs[j].status.Waiting? ==> Run(es).jobs[i].status.Done?
  {
    RunKeeps(es);
  }

  // A rejection stops nothing: while a run waits, either one is running or the first waiting one may start.
  lemma {:induction false} NeverStuck(es: seq<Event>, j: nat)
    requires j < |Run(es).jobs| && Run(es).jobs[j].status.Waiting?
    ensures exists i: nat :: i < |Run(es).jobs| && (Run(es).jobs[i].status.Running? || Ready(Run(es), i))
    decreases j
  {
    RunKeeps(es);
    var s := Run(es);
    if !Ready(s, j) {
      var p :| p in s.jobs[j].after && !s.jobs[p].status.Done?;
      if s.jobs[p].status.Waiting? { NeverStuck(es, p); }
    }
  }
}
