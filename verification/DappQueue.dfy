// The approval queue of the background page. A site's request waits in an insertion-ordered map, is taken out when the
// window decides it, and is settled or, for a fill whose reservation is unconfirmed, put back at the head. The wallet
// call is an await, so arrivals, decisions and the window's closing fall anywhere around it.

module DappQueue {
  import opened Base

  const MAX_PENDING_GLOBAL: nat := 32
  const MAX_PENDING_PER_ORIGIN: nat := 5

  // `id` is the reqSeq part of the request's id; `back` marks a request put back for its confirm step.
  datatype Request = Request(id: nat, origin: string, fill: bool, back: bool)

  datatype Outcome = UserRejected | ApprovalClosed | Answered(ok: bool)
  datatype Settled = Settled(id: nat, outcome: Outcome)

  datatype State = State(
    pending: seq<Request>,           // the map's values in insertion order
    inFlight: map<nat, Request>,     // resolvePending calls waiting on the wallet
    settled: seq<Settled>,           // every p.resolve call so far
    window: Option<nat>,             // approveWinId
    made: nat)                       // reqSeq

  datatype Event =
    | Arrive(origin: string, known: bool, fill: bool)   // queueDappRequest; `known`: the method is in DAPP_METHODS
    | Decide(id: nat, approve: bool)                    // resolvePending, up to its first await
    | Answer(id: nat, ok: bool)                         // the wallet's result, refusal or throw
    | Unconfirmed(id: nat)                              // fillOffer answered RESERVATION_UNCONFIRMED
    | Opened(w: nat)                                    // windows.create's callback
    | Closed(w: nat)                                    // windows.onRemoved

  const Start: State := State([], map[], [], None, 0)

  function Count(q: seq<Request>, id: nat): nat {
    if q == [] then 0 else Count(q[..|q| - 1], id) + if q[|q| - 1].id == id then 1 else 0
  }

  function OfOrigin(q: seq<Request>, origin: string): nat {
    if q == [] then 0 else OfOrigin(q[..|q| - 1], origin) + if q[|q| - 1].origin == origin then 1 else 0
  }

  // Where an origin's requests are.
  ghost function PlacesOf(q: seq<Request>, origin: string): set<nat> { set i: nat | i < |q| && q[i].origin == origin }

  lemma {:induction false} OfOriginIs(q: seq<Request>, origin: string)
    ensures OfOrigin(q, origin) == |PlacesOf(q, origin)|
  {
    if q != [] {
      var n := |q| - 1;
      OfOriginIs(q[..n], origin);
      assert PlacesOf(q, origin) == PlacesOf(q[..n], origin) + if q[n].origin == origin then {n} else {};
    }
  }

  // pending.delete(id)
  function Without(q: seq<Request>, id: nat): seq<Request> {
    if q == [] then [] else Without(q[..|q| - 1], id) + if q[|q| - 1].id == id then [] else [q[|q| - 1]]
  }

  // pending.set(r.id, r): an existing key keeps its place.
  function Put(q: seq<Request>, r: Request): seq<Request> {
    if q == [] then [r]
    else if q[0].id == r.id then [r] + q[1..]
    else [q[0]] + Put(q[1..], r)
  }

  function CloseAll(q: seq<Request>): seq<Settled> {
    if q == [] then [] else CloseAll(q[..|q| - 1]) + [Settled(q[|q| - 1].id, ApprovalClosed)]
  }

  lemma {:induction false} CloseAllIs(q: seq<Request>)
    ensures |CloseAll(q)| == |q| && forall i :: 0 <= i < |q| ==> CloseAll(q)[i] == Settled(q[i].id, ApprovalClosed)
  {
    if q != [] { CloseAllIs(q[..|q| - 1]); }
  }

  function Times(log: seq<Settled>, id: nat): nat {
    if log == [] then 0 else Times(log[..|log| - 1], id) + if log[|log| - 1].id == id then 1 else 0
  }

  function Find(q: seq<Request>, id: nat): (r: Option<Request>)
    ensures r.Some? ==> r.value in q && r.value.id == id
    ensures r.None? <==> Count(q, id) == 0
  {
    if q == [] then None else if q[|q| - 1].id == id then Some(q[|q| - 1]) else Find(q[..|q| - 1], id)
  }

  // An event that does not fit (no such request, no such window) changes nothing.
  function Step(s: State, e: Event): State {
    match e
    case Arrive(origin, known, fill) =>
      if !known || |s.pending| >= MAX_PENDING_GLOBAL || OfOrigin(s.pending, origin) >= MAX_PENDING_PER_ORIGIN then s
      else s.(pending := s.pending + [Request(s.made, origin, fill, false)], made := s.made + 1)
    case Decide(id, approve) =>
      var p := Find(s.pending, id);
      if p.None? then s
      else if approve then s.(pending := Without(s.pending, id), inFlight := s.inFlight[id := p.value])
      else s.(pending := Without(s.pending, id), settled := s.settled + [Settled(id, UserRejected)])
    case Answer(id, ok) =>
      if id !in s.inFlight then s
      else s.(inFlight := s.inFlight - {id}, settled := s.settled + [Settled(id, Answered(ok))])
    case Unconfirmed(id) =>
      if id !in s.inFlight || !s.inFlight[id].fill then s
      else if s.window.None? then s.(inFlight := s.inFlight - {id}, settled := s.settled + [Settled(id, ApprovalClosed)])
      else s.(inFlight := s.inFlight - {id}, pending := [s.inFlight[id].(back := true)] + s.pending)
    case Opened(w) => if s.window.None? then s.(window := Some(w)) else s
    case Closed(w) =>
      if s.window != Some(w) then s
      else s.(window := None, pending := [], settled := s.settled + CloseAll(s.pending))
  }

  function Run(s: State, es: seq<Event>): State { if es == [] then s else Step(Run(s, es[..|es| - 1]), es[|es| - 1]) }

  // ---- The invariant ----

  // Where a request is, counted: queued, in flight, settled.
  function Copies(s: State, id: nat): nat {
    Count(s.pending, id) + (if id in s.inFlight then 1 else 0) + Times(s.settled, id)
  }

  // Every request ever queued is in exactly one place, once; nothing else is anywhere.
  ghost predicate Accounted(s: State) {
    && (forall id: nat :: Copies(s, id) == if id < s.made then 1 else 0)
    && (forall id: nat :: id in s.inFlight ==> s.inFlight[id].id == id)
  }

  // The requests put back stand before the others, and the others stand in arrival order.
  ghost predicate InOrder(q: seq<Request>) {
    q == [] || (InOrder(q[..|q| - 1]) && AllBefore(q[..|q| - 1], q[|q| - 1]))
  }

  ghost predicate AllBefore(q: seq<Request>, b: Request) { forall r :: r in q ==> Before(r, b) }

  predicate Before(a: Request, b: Request) { (b.back ==> a.back) && (a.back || b.back || a.id < b.id) }

  function Back(q: seq<Request>): nat { if q == [] then 0 else Back(q[..|q| - 1]) + if q[|q| - 1].back then 1 else 0 }

  function BackOf(q: seq<Request>, origin: string): nat {
    if q == [] then 0 else BackOf(q[..|q| - 1], origin) + if q[|q| - 1].back && q[|q| - 1].origin == origin then 1 else 0
  }

  // The caps hold but for the requests put back, each of which took a user's approval.
  ghost predicate Capped(q: seq<Request>) {
    && |q| <= MAX_PENDING_GLOBAL + Back(q)
    && (forall o: string :: OfOrigin(q, o) <= MAX_PENDING_PER_ORIGIN + BackOf(q, o))
  }

  ghost predicate Valid(s: State) { Accounted(s) && InOrder(s.pending) && Capped(s.pending) }

  // ---- Lemmas on the queue ----

  lemma {:induction false} WithoutGone(q: seq<Request>, id: nat, x: nat)
    ensures Count(Without(q, id), x) == if x == id then 0 else Count(q, x)
  {
    if q != [] {
      var init, last := q[..|q| - 1], q[|q| - 1];
      var w := Without(init, id);
      WithoutGone(init, id, x);
      if last.id == id { assert w + [] == w; } else { assert (w + [last])[..|w|] == w; }
    }
  }

  lemma {:induction false} WithoutFrom(q: seq<Request>, id: nat, r: Request)
    requires r in Without(q, id)
    ensures r in q
  {
    var init, last := q[..|q| - 1], q[|q| - 1];
    if r in Without(init, id) { WithoutFrom(init, id, r); }
  }

  lemma {:induction false} WithoutOrdered(q: seq<Request>, id: nat)
    requires InOrder(q)
    ensures InOrder(Without(q, id))
  {
    if q != [] {
      var init := q[..|q| - 1];
      WithoutOrdered(init, id);
      var w := Without(init, id);
      forall r | r in w ensures Before(r, q[|q| - 1]) { WithoutFrom(init, id, r); }
      assert q[|q| - 1].id != id ==> (w + [q[|q| - 1]])[..|w|] == w;
      assert w + [] == w;
    }
  }

  lemma {:induction false} WithoutCapped(q: seq<Request>, id: nat, o: string)
    ensures |Without(q, id)| - Back(Without(q, id)) <= |q| - Back(q)
    ensures OfOrigin(Without(q, id), o) - BackOf(Without(q, id), o) <= OfOrigin(q, o) - BackOf(q, o)
  {
    if q != [] {
      var init := q[..|q| - 1];
      WithoutCapped(init, id, o);
      var w := Without(init, id);
      assert q[|q| - 1].id != id ==> (w + [q[|q| - 1]])[..|w|] == w;
      assert w + [] == w;
    }
  }

  lemma {:induction false} HeadCount(r: Request, q: seq<Request>, x: nat)
    ensures Count([r] + q, x) == Count(q, x) + if r.id == x then 1 else 0
  {
    if q == [] { assert [r] + q == [r] && [r][..0] == []; }
    else {
      assert ([r] + q)[..|q|] == [r] + q[..|q| - 1];
      HeadCount(r, q[..|q| - 1], x);
    }
  }

  lemma {:induction false} HeadOrdered(r: Request, q: seq<Request>)
    requires InOrder(q) && r.back
    ensures InOrder([r] + q)
  {
    if q == [] { assert [r] + q == [r] && [r][..0] == []; }
    else {
      assert ([r] + q)[..|q|] == [r] + q[..|q| - 1];
      HeadOrdered(r, q[..|q| - 1]);
    }
  }

  lemma {:induction false} HeadCapped(r: Request, q: seq<Request>, o: string)
    requires r.back
    ensures Back([r] + q) == Back(q) + 1
    ensures OfOrigin([r] + q, o) - BackOf([r] + q, o) == OfOrigin(q, o) - BackOf(q, o)
  {
    if q == [] { assert [r] + q == [r] && [r][..0] == []; }
    else {
      assert ([r] + q)[..|q|] == [r] + q[..|q| - 1];
      HeadCapped(r, q[..|q| - 1], o);
    }
  }

  lemma {:induction false} CountIn(q: seq<Request>, r: Request)
    requires r in q
    ensures Count(q, r.id) > 0
  {
    if r != q[|q| - 1] { CountIn(q[..|q| - 1], r); }
  }

  lemma {:induction false} CloseAllTimes(log: seq<Settled>, q: seq<Request>, id: nat)
    ensures Times(log + CloseAll(q), id) == Times(log, id) + Count(q, id)
  {
    if q == [] { assert log + CloseAll(q) == log; }
    else {
      var c := CloseAll(q[..|q| - 1]);
      CloseAllTimes(log, q[..|q| - 1], id);
      assert (log + CloseAll(q))[..|log| + |c|] == log + c;
    }
  }

  // ---- Every step keeps the invariant ----

  lemma {:induction false} ArriveKeeps(s: State, origin: string, known: bool, fill: bool)
    requires Valid(s)
    ensures Valid(Step(s, Arrive(origin, known, fill)))
  {
    var t := Step(s, Arrive(origin, known, fill));
    if t.pending != s.pending {
      var r := Request(s.made, origin, fill, false);
      AppendAccounts(s, r);
      AppendOrdered(s, r);
      AppendCapped(s.pending, r);
    }
  }

  lemma {:induction false} AppendAccounts(s: State, r: Request)
    requires Accounted(s) && r.id == s.made
    ensures Accounted(s.(pending := s.pending + [r], made := s.made + 1))
  {
    var t := s.(pending := s.pending + [r], made := s.made + 1);
    assert t.pending[..|s.pending|] == s.pending;
    forall id: nat ensures Copies(t, id) == if id < t.made then 1 else 0 {
      assert Copies(s, id) == if id < s.made then 1 else 0;
    }
  }

  lemma {:induction false} AppendOrdered(s: State, r: Request)
    requires Accounted(s) && InOrder(s.pending) && r.id == s.made && !r.back
    ensures InOrder(s.pending + [r])
  {
    hide Count;
    assert (s.pending + [r])[..|s.pending|] == s.pending;
    forall x | x in s.pending ensures Before(x, r) {
      CountIn(s.pending, x);
      assert Copies(s, x.id) == if x.id < s.made then 1 else 0;
    }
  }

  lemma {:induction false} AppendCapped(q: seq<Request>, r: Request)
    requires Capped(q) && |q| < MAX_PENDING_GLOBAL && OfOrigin(q, r.origin) < MAX_PENDING_PER_ORIGIN && !r.back
    ensures Capped(q + [r])
  {
    assert (q + [r])[..|q|] == q;
    assert Back(q + [r]) == Back(q);
    forall o: string ensures OfOrigin(q + [r], o) <= MAX_PENDING_PER_ORIGIN + BackOf(q + [r], o) {
      assert BackOf(q + [r], o) == BackOf(q, o);
    }
  }

  lemma {:induction false} DecideKeeps(s: State, id: nat, approve: bool)
    requires Valid(s)
    ensures Valid(Step(s, Decide(id, approve)))
  {
    hide Without, InOrder, OfOrigin, BackOf, Back, Capped;
    if Find(s.pending, id).Some? {
      DecideAccounts(s, id, approve);
      WithoutOrdered(s.pending, id);
      WithoutCaps(s.pending, id);
    }
  }

  lemma {:induction false} WithoutCaps(q: seq<Request>, id: nat)
    requires Capped(q)
    ensures Capped(Without(q, id))
  {
    hide Without, OfOrigin, BackOf, Back;
    WithoutCapped(q, id, "");
    forall o: string ensures OfOrigin(Without(q, id), o) <= MAX_PENDING_PER_ORIGIN + BackOf(Without(q, id), o) {
      WithoutCapped(q, id, o);
    }
  }

  lemma {:induction false} DecideAccounts(s: State, id: nat, approve: bool)
    requires Accounted(s)
    ensures Accounted(Step(s, Decide(id, approve)))
  {
    hide Without, Count;
    var t := Step(s, Decide(id, approve));
    if Find(s.pending, id).Some? {
      assert Copies(s, id) == if id < s.made then 1 else 0;
      assert !approve ==> t.settled[..|s.settled|] == s.settled;
      forall x: nat ensures Copies(t, x) == if x < t.made then 1 else 0 {
        assert Copies(s, x) == if x < s.made then 1 else 0;
        WithoutGone(s.pending, id, x);
      }
    }
  }

  lemma {:induction false} BackAccounted(s: State, id: nat)
    requires Accounted(s) && id in s.inFlight
    ensures Accounted(s.(inFlight := s.inFlight - {id}, pending := [s.inFlight[id].(back := true)] + s.pending))
  {
    var r := s.inFlight[id].(back := true);
    var t := s.(inFlight := s.inFlight - {id}, pending := [r] + s.pending);
    hide Count, Times;
    forall x: nat ensures Copies(t, x) == if x < t.made then 1 else 0 {
      assert Copies(s, x) == if x < s.made then 1 else 0;
      HeadCount(r, s.pending, x);
    }
  }

  lemma {:induction false} ClosedAccounted(s: State, id: nat)
    requires Accounted(s) && id in s.inFlight
    ensures Accounted(s.(inFlight := s.inFlight - {id}, settled := s.settled + [Settled(id, ApprovalClosed)]))
  {
    var t := s.(inFlight := s.inFlight - {id}, settled := s.settled + [Settled(id, ApprovalClosed)]);
    assert t.settled[..|s.settled|] == s.settled;
    hide Count;
    forall x: nat ensures Copies(t, x) == if x < t.made then 1 else 0 {
      assert Copies(s, x) == if x < s.made then 1 else 0;
    }
  }

  lemma {:induction false} BackCapped(q: seq<Request>, r: Request)
    requires Capped(q) && r.back
    ensures Capped([r] + q)
  {
    hide OfOrigin, BackOf, Back;
    forall o: string ensures OfOrigin([r] + q, o) <= MAX_PENDING_PER_ORIGIN + BackOf([r] + q, o) { HeadCapped(r, q, o); }
    HeadCapped(r, q, "");
  }

  lemma {:induction false} UnconfirmedKeeps(s: State, id: nat)
    requires Valid(s)
    ensures Valid(Step(s, Unconfirmed(id)))
  {
    hide Accounted, InOrder, Capped;
    if id in s.inFlight && s.inFlight[id].fill {
      var r := s.inFlight[id].(back := true);
      if s.window.None? { ClosedAccounted(s, id); }
      else {
        BackAccounted(s, id);
        HeadOrdered(r, s.pending);
        BackCapped(s.pending, r);
      }
    }
  }

  // Outside the queue: a settlement, and the window's two events.
  lemma {:induction false} SettlesKeep(s: State, e: Event)
    requires Valid(s) && (e.Answer? || e.Opened? || e.Closed?)
    ensures Valid(Step(s, e))
  {
    hide Count, InOrder, OfOrigin, BackOf, Back;
    var t := Step(s, e);
    if t.settled != s.settled && e.Answer? { assert t.settled[..|s.settled|] == s.settled; }
    forall x: nat ensures Copies(t, x) == if x < t.made then 1 else 0 {
      assert Copies(s, x) == if x < s.made then 1 else 0;
      if e.Closed? && t != s { CloseAllTimes(s.settled, s.pending, x); EmptyQueue(x, ""); }
    }
    if e.Closed? { forall o: string { EmptyQueue(0, o); } EmptyQueue(0, ""); }
  }

  lemma {:induction false} EmptyQueue(id: nat, o: string)
    ensures Count([], id) == 0 && OfOrigin([], o) == 0 && Capped([]) && InOrder([])
  {
  }

  lemma {:induction false} StepKeeps(s: State, e: Event)
    requires Valid(s)
    ensures Valid(Step(s, e))
  {
    hide Step, Valid;
    match e
    case Arrive(origin, known, fill) => ArriveKeeps(s, origin, known, fill);
    case Decide(id, approve) => DecideKeeps(s, id, approve);
    case Unconfirmed(id) => UnconfirmedKeeps(s, id);
    case _ => SettlesKeep(s, e);
  }

  // Over every run: each request is in exactly one place and settled at most once, the queue keeps its order, and its
  // size passes the caps only by the requests put back.
  lemma {:induction false} RunKeeps(es: seq<Event>)
    ensures Valid(Run(Start, es))
  {
    if es != [] {
      RunKeeps(es[..|es| - 1]);
      StepKeeps(Run(Start, es[..|es| - 1]), es[|es| - 1]);
    }
  }

  // ---- What a site can rely on ----

  lemma ExactlyOnePlace(es: seq<Event>, id: nat)
    ensures var s := Run(Start, es);
      && (id < s.made ==> Count(s.pending, id) <= 1 && Times(s.settled, id) <= 1)
      && (id < s.made && Count(s.pending, id) == 1 ==> id !in s.inFlight && Times(s.settled, id) == 0)
      && (id < s.made && id in s.inFlight ==> Count(s.pending, id) == 0 && Times(s.settled, id) == 0)
      && (id < s.made && Count(s.pending, id) == 0 && id !in s.inFlight ==> Times(s.settled, id) == 1)
  {
    RunKeeps(es);
    assert Copies(Run(Start, es), id) == if id < Run(Start, es).made then 1 else 0;
  }

  // A settled request stays settled, with the outcome it got: the log only grows, and never by the same request again.
  lemma {:induction false} SettledForGood(es: seq<Event>, e: Event, id: nat)
    ensures var s, t := Run(Start, es), Step(Run(Start, es), e);
      s.settled <= t.settled && (Times(s.settled, id) == 1 ==> Times(t.settled, id) == 1)
  {
    RunKeeps(es);
    var s, t := Run(Start, es), Step(Run(Start, es), e);
    StepKeeps(s, e);
    assert Copies(s, id) == if id < s.made then 1 else 0;
    assert Copies(t, id) == if id < t.made then 1 else 0;
    if s.settled != t.settled { TimesGrows(s.settled, t.settled[|s.settled|..], id); assert s.settled + t.settled[|s.settled|..] == t.settled; }
  }

  lemma {:induction false} TimesGrows(log: seq<Settled>, more: seq<Settled>, id: nat)
    ensures Times(log + more, id) >= Times(log, id)
  {
    if more == [] { assert log + more == log; }
    else {
      assert (log + more)[..|log + more| - 1] == log + more[..|more| - 1];
      TimesGrows(log, more[..|more| - 1], id);
    }
  }

  // ---- Each outcome is the one decided ----

  // The last decision on a request that found it queued.
  ghost function Verdict(es: seq<Event>, id: nat): Option<bool> {
    if es == [] then None
    else
      var init, e := es[..|es| - 1], es[|es| - 1];
      if e.Decide? && e.id == id && Find(Run(Start, init).pending, id).Some? then Some(e.approve) else Verdict(init, id)
  }

  // The arrival that was given this number.
  ghost predicate ArrivedAs(es: seq<Event>, r: Request) {
    exists i :: 0 <= i < |es| && es[i] == Arrive(r.origin, true, r.fill) && Run(Start, es[..i]).made == r.id && Run(Start, es[..i + 1]).made == r.id + 1
  }

  // A request put back was approved; one that waits for the first time was not decided.
  ghost predicate QueuedFits(es: seq<Event>, r: Request) { ArrivedAs(es, r) && Verdict(es, r.id) == if r.back then Some(true) else None }

  ghost predicate InFlightFits(es: seq<Event>, r: Request) { ArrivedAs(es, r) && Verdict(es, r.id) == Some(true) }

  // Answered only once approved, with the wallet's own answer; rejected only by its last decision; closed only unrejected.
  ghost predicate SettledFits(es: seq<Event>, x: Settled) {
    match x.outcome
    case Answered(ok) => Verdict(es, x.id) == Some(true) && Answer(x.id, ok) in es
    case UserRejected => Verdict(es, x.id) == Some(false)
    case ApprovalClosed => Verdict(es, x.id) != Some(false) && exists e :: e in es && (e.Closed? || e == Unconfirmed(x.id))
  }

  ghost predicate Fits(es: seq<Event>, s: State) {
    && (forall r :: r in s.pending ==> QueuedFits(es, r))
    && (forall id: nat :: id in s.inFlight ==> InFlightFits(es, s.inFlight[id]))
    && (forall x :: x in s.settled ==> SettledFits(es, x))
  }

  lemma VerdictSnoc(es: seq<Event>, e: Event, id: nat)
    ensures Verdict(es + [e], id) == if e.Decide? && e.id == id && Find(Run(Start, es).pending, id).Some? then Some(e.approve) else Verdict(es, id)
  {
    assert (es + [e])[..|es|] == es;
  }

  lemma ArrivedSnoc(es: seq<Event>, e: Event, r: Request)
    requires ArrivedAs(es, r)
    ensures ArrivedAs(es + [e], r) && forall b :: ArrivedAs(es + [e], r.(back := b))
  {
    var i :| 0 <= i < |es| && es[i] == Arrive(r.origin, true, r.fill) && Run(Start, es[..i]).made == r.id && Run(Start, es[..i + 1]).made == r.id + 1;
    assert (es + [e])[..i] == es[..i] && (es + [e])[..i + 1] == es[..i + 1] && (es + [e])[i] == es[i];
  }

  lemma SettledSnoc(es: seq<Event>, e: Event, x: Settled)
    requires SettledFits(es, x) && Verdict(es + [e], x.id) == Verdict(es, x.id)
    ensures SettledFits(es + [e], x)
  {
    assert forall y :: y in es ==> y in es + [e];
  }

  lemma RunOn(es: seq<Event>, e: Event)
    ensures Run(Start, es + [e]) == Step(Run(Start, es), e) && e in es + [e]
  {
    assert (es + [e])[..|es|] == es;
  }

  // A decision that applies is on a queued request, so it changes no other request's verdict and no settled one's.
  lemma {:induction false} SettledStepFits(es: seq<Event>, e: Event, x: Settled)
    requires Fits(es, Run(Start, es)) && Valid(Run(Start, es)) && x in Step(Run(Start, es), e).settled
    ensures SettledFits(es + [e], x)
  {
    hide Run, Verdict, Valid, Step, SettledFits, Find, ArrivedAs;
    var s := Run(Start, es);
    VerdictSnoc(es, e, x.id);
    if x in s.settled {
      SettledOnce(s, x);
      SettledSnoc(es, e, x);
    } else {
      NewlySettled(es, e, x);
    }
  }

  lemma {:induction false} QueuedStepFits(es: seq<Event>, e: Event, r: Request)
    requires Fits(es, Run(Start, es)) && Valid(Run(Start, es)) && r in Step(Run(Start, es), e).pending
    ensures QueuedFits(es + [e], r)
  {
    hide Run, Verdict, Valid, ArrivedAs, OfOrigin, CloseAll;
    var s := Run(Start, es);
    VerdictSnoc(es, e, r.id);
    if r in s.pending {
      ArrivedSnoc(es, e, r);
      if e.Decide? && Find(s.pending, e.id).Some? { WithoutGoneIn(s.pending, e.id, r); }
    } else {
      NewlyQueued(es, e, r);
    }
  }

  lemma {:induction false} FlyingStepFits(es: seq<Event>, e: Event, id: nat)
    requires Fits(es, Run(Start, es)) && Valid(Run(Start, es)) && id in Step(Run(Start, es), e).inFlight
    ensures InFlightFits(es + [e], Step(Run(Start, es), e).inFlight[id])
  {
    hide Run, Verdict, Valid, ArrivedAs, OfOrigin, CloseAll, Without;
    var s := Run(Start, es);
    var t := Step(s, e);
    if e == Decide(id, true) && Find(s.pending, id).Some? {
      ArrivedSnoc(es, e, Find(s.pending, id).value);
      VerdictSnoc(es, e, id);
    } else {
      assert id in s.inFlight && t.inFlight[id] == s.inFlight[id];
      ArrivedSnoc(es, e, s.inFlight[id]);
      InFlightIs(s, id);
      InFlightOnce(s, id);
      VerdictSnoc(es, e, id);
    }
  }

  lemma {:induction false} StepFits(es: seq<Event>, e: Event)
    requires Fits(es, Run(Start, es)) && Valid(Run(Start, es))
    ensures Fits(es + [e], Step(Run(Start, es), e))
  {
    var t := Step(Run(Start, es), e);
    hide Run, Verdict, Valid, Step, SettledFits, QueuedFits, InFlightFits;
    forall x | x in t.settled ensures SettledFits(es + [e], x) { SettledStepFits(es, e, x); }
    forall r | r in t.pending ensures QueuedFits(es + [e], r) { QueuedStepFits(es, e, r); }
    forall id: nat | id in t.inFlight ensures InFlightFits(es + [e], t.inFlight[id]) { FlyingStepFits(es, e, id); }
  }

  lemma InFlightIs(s: State, id: nat)
    requires Valid(s)
    ensures id in s.inFlight ==> s.inFlight[id].id == id
  {
  }

  lemma InFlightOnce(s: State, id: nat)
    requires Valid(s) && id in s.inFlight
    ensures Find(s.pending, id).None?
  {
    assert Copies(s, id) == if id < s.made then 1 else 0;
  }

  lemma SettledOnce(s: State, x: Settled)
    requires Valid(s) && x in s.settled
    ensures Find(s.pending, x.id).None?
  {
    assert Copies(s, x.id) == if x.id < s.made then 1 else 0;
    TimesIn(s.settled, x);
  }

  lemma {:induction false} TimesIn(log: seq<Settled>, x: Settled)
    requires x in log
    ensures Times(log, x.id) > 0
  {
    if x != log[|log| - 1] { TimesIn(log[..|log| - 1], x); }
  }

  lemma {:induction false} WithoutGoneIn(q: seq<Request>, id: nat, r: Request)
    requires r in Without(q, id)
    ensures r.id != id && r in q
  {
    var init, last := q[..|q| - 1], q[|q| - 1];
    if r in Without(init, id) { WithoutGoneIn(init, id, r); }
  }

  lemma {:induction false} CloseAllIn(q: seq<Request>, x: Settled) returns (r: Request)
    requires x in CloseAll(q)
    ensures r in q && x == Settled(r.id, ApprovalClosed)
  {
    var init, last := q[..|q| - 1], q[|q| - 1];
    if x in CloseAll(init) { r := CloseAllIn(init, x); } else { r := last; }
  }

  lemma NewlySettled(es: seq<Event>, e: Event, x: Settled)
    requires Fits(es, Run(Start, es)) && Valid(Run(Start, es))
    requires x in Step(Run(Start, es), e).settled && x !in Run(Start, es).settled
    ensures SettledFits(es + [e], x)
  {
    var s := Run(Start, es);
    VerdictSnoc(es, e, x.id);
    InFlightIs(s, x.id);
    hide Run, Verdict, Valid, QueuedFits, SettledFits, InFlightFits, Step;
    match e
    case Closed(w) => NewlyClosed(es, s, e, x);
    case Answer(id, ok) => InFlightIs(s, id); NewlyAnswered(es, s, e, x);
    case Unconfirmed(id) => InFlightIs(s, id); NewlyAnswered(es, s, e, x);
    case Decide(id, approve) => NewlyRejected(es, s, e, x);
    case _ => NothingSettled(s, e);
  }

  lemma NothingSettled(s: State, e: Event)
    requires e.Arrive? || e.Opened?
    ensures Step(s, e).settled == s.settled
  {
  }

  lemma NewlyRejected(es: seq<Event>, s: State, e: Event, x: Settled)
    requires e.Decide? && x in Step(s, e).settled && x !in s.settled
    requires Verdict(es + [e], x.id) == if e.id == x.id && Find(s.pending, x.id).Some? then Some(e.approve) else Verdict(es, x.id)
    ensures SettledFits(es + [e], x)
  {
    hide Verdict;
  }

  lemma NewlyAnswered(es: seq<Event>, s: State, e: Event, x: Settled)
    requires (e.Answer? || e.Unconfirmed?) && x in Step(s, e).settled && x !in s.settled
    requires e.id in s.inFlight ==> InFlightFits(es, s.inFlight[e.id]) && s.inFlight[e.id].id == e.id
    requires Verdict(es + [e], x.id) == Verdict(es, x.id)
    ensures SettledFits(es + [e], x)
  {
    hide Verdict;
    assert e in es + [e];
  }

  lemma NewlyClosed(es: seq<Event>, s: State, e: Event, x: Settled)
    requires e.Closed? && x in Step(s, e).settled && x !in s.settled
    requires forall r :: r in s.pending ==> QueuedFits(es, r)
    requires Verdict(es + [e], x.id) == Verdict(es, x.id)
    ensures SettledFits(es + [e], x)
  {
    hide Verdict;
    assert e in es + [e];
    var r := CloseAllIn(s.pending, x);
    assert QueuedFits(es, r);
  }

  lemma NewlyQueued(es: seq<Event>, e: Event, r: Request)
    requires Fits(es, Run(Start, es)) && Valid(Run(Start, es))
    requires r in Step(Run(Start, es), e).pending && r !in Run(Start, es).pending
    ensures QueuedFits(es + [e], r)
  {
    hide Run, Valid, OfOrigin, Verdict, ArrivedAs, CloseAll;
    var s := Run(Start, es);
    VerdictSnoc(es, e, r.id);
    match e
    case Arrive(origin, known, fill) =>
      NotYetDecided(es, r.id);
      NewlyArrived(es, e, r);
    case Decide(id, approve) => if Find(s.pending, id).Some? { WithoutFrom(s.pending, id, r); }
    case Unconfirmed(id) =>
      InFlightIs(s, id);
      ArrivedSnoc(es, e, s.inFlight[id]);
    case _ =>
  }

  lemma ArriveIs(s: State, e: Event, r: Request)
    requires e.Arrive? && r in Step(s, e).pending && r !in s.pending
    ensures e.known && r == Request(s.made, e.origin, e.fill, false) && Step(s, e).made == s.made + 1
  {
    hide OfOrigin;
  }

  lemma NewlyArrived(es: seq<Event>, e: Event, r: Request)
    requires e.Arrive? && r in Step(Run(Start, es), e).pending && r !in Run(Start, es).pending
    ensures ArrivedAs(es + [e], r)
  {
    hide Run, Step;
    var es' := es + [e];
    ArriveIs(Run(Start, es), e, r);
    RunOn(es, e);
    assert es'[..|es|] == es && es'[..|es| + 1] == es' && es'[|es|] == Arrive(r.origin, true, r.fill);
  }

  // A number not given out yet was not decided on.
  lemma {:induction false} NotYetDecided(es: seq<Event>, id: nat)
    requires id >= Run(Start, es).made
    ensures Verdict(es, id).None?
  {
    if es != [] {
      var init := es[..|es| - 1];
      var s := Run(Start, init);
      NotYetDecided(init, id);
      RunKeeps(init);
      assert Copies(s, id) == if id < s.made then 1 else 0;
    }
  }

  // Over every run: what is in flight, or settled with the wallet's answer, was approved by its last decision; what is
  // settled as rejected was rejected by it; what waits again was approved, and what waits for the first time was not
  // decided on; and each is the request that arrived under its number.
  lemma {:induction false} OutcomesAreDecided(es: seq<Event>)
    ensures Fits(es, Run(Start, es))
  {
    if es != [] {
      var init, e := es[..|es| - 1], es[|es| - 1];
      OutcomesAreDecided(init);
      RunKeeps(init);
      StepFits(init, e);
      assert init + [e] == es;
    }
  }

  // So a rejected request was handed to nobody: it is settled, once, as rejected.
  lemma RejectedIsRejected(es: seq<Event>, id: nat)
    requires Verdict(es, id) == Some(false) && id < Run(Start, es).made
    ensures var s := Run(Start, es); id !in s.inFlight && Find(s.pending, id).None? && Settled(id, UserRejected) in s.settled
  {
    OutcomesAreDecided(es);
    RunKeeps(es);
    var s := Run(Start, es);
    assert Copies(s, id) == if id < s.made then 1 else 0;
    assert !(id in s.inFlight) by {
      if id in s.inFlight { InFlightIs(s, id); }
    }
    assert Find(s.pending, id).None? by {
      var r := Find(s.pending, id);
      assert r.Some? ==> QueuedFits(es, r.value);
    }
    var x := InLog(s.settled, id);
    assert SettledFits(es, x);
  }

  lemma {:induction false} InLog(log: seq<Settled>, id: nat) returns (x: Settled)
    requires Times(log, id) > 0
    ensures x in log && x.id == id
  {
    if log[|log| - 1].id == id { x := log[|log| - 1]; } else { x := InLog(log[..|log| - 1], id); }
  }

  // ---- The "Sign anyway" acknowledgement ----

  datatype Ack = Ack(requestId: nat, fclaimTxid: string)

  predicate IsHex(c: char) { '0' <= c <= '9' || 'a' <= c <= 'f' || 'A' <= c <= 'F' }

  predicate IsTxid(t: string) { |t| == 66 && t[0] == '0' && t[1] == 'x' && forall i :: 2 <= i < 66 ==> IsHex(t[i]) }

  // It counts only for the request it names, and only as a transaction id; the wallet is handed its lower-case form.
  function ReservationAckFor(id: nat, ack: Option<Ack>): (t: Option<string>)
    ensures t.Some? <==> ack.Some? && ack.value.requestId == id && IsTxid(ack.value.fclaimTxid)
    ensures t.Some? ==> IsTxid(t.value) && t.value == LowerCase(ack.value.fclaimTxid)
  {
    if ack.None? || ack.value.requestId != id || !IsTxid(ack.value.fclaimTxid) then None
    else Some(LowerCase(ack.value.fclaimTxid))
  }

  // ---- The background page's variables ----

  class Queue {
    var pending: seq<Request>
    var inFlight: map<nat, Request>
    ghost var settled: seq<Settled>
    var approveWinId: Option<nat>
    var reqSeq: nat

    ghost function Now(): State reads this { State(pending, inFlight, settled, approveWinId, reqSeq) }

    constructor ()
      ensures Now() == Start && Valid(Now())
    {
      pending, inFlight, settled, approveWinId, reqSeq := [], map[], [], None, 0;
    }

    // queueDappRequest: counts the site's requests, and refuses over a cap.
    method QueueDappRequest(origin: string, known: bool, fill: bool) returns (queued: bool)
      modifies `pending, `reqSeq
      ensures Now() == Step(old(Now()), Arrive(origin, known, fill))
      ensures queued <==> known && |old(pending)| < 32 && |PlacesOf(old(pending), origin)| < 5
      ensures pending == if queued then old(pending) + [Request(old(reqSeq), origin, fill, false)] else old(pending)
    {
      OfOriginIs(pending, origin);
      if !known || |pending| >= MAX_PENDING_GLOBAL { return false; }
      var perOrigin := 0;
      for i := 0 to |pending|
        invariant perOrigin == OfOrigin(pending[..i], origin)
      {
        assert pending[..i + 1][..i] == pending[..i];
        if pending[i].origin == origin { perOrigin := perOrigin + 1; }
      }
      assert pending[..|pending|] == pending;
      if perOrigin >= MAX_PENDING_PER_ORIGIN { return false; }
      pending := pending + [Request(reqSeq, origin, fill, false)];
      reqSeq := reqSeq + 1;
      return true;
    }

    method ResolvePending(id: nat, approve: bool)
      modifies `pending, `inFlight, `settled
      ensures Now() == Step(old(Now()), Decide(id, approve))
      ensures !approve ==> inFlight == old(inFlight) && forall x :: x in settled[|old(settled)|..] ==> x == Settled(id, UserRejected)
      ensures approve ==> settled == old(settled) && (Count(old(pending), id) > 0 ==> id in inFlight)
    {
      var p := Find(pending, id);
      if p.None? { return; }
      pending := Without(pending, id);
      if approve { inFlight := inFlight[id := p.value]; } else { settled := settled + [Settled(id, UserRejected)]; }
    }

    method Finish(id: nat, ok: bool)
      modifies `inFlight, `settled
      ensures Now() == Step(old(Now()), Answer(id, ok))
      ensures id in old(inFlight) ==> inFlight == old(inFlight) - {id} && settled == old(settled) + [Settled(id, Answered(ok))]
    {
      if id !in inFlight { return; }
      inFlight := inFlight - {id};
      settled := settled + [Settled(id, Answered(ok))];
    }

    // The map is emptied and filled again with the request first: every other key keeps its place behind it.
    method RequeueFront(r: Request)
      requires Count(pending, r.id) == 0 && forall x: nat :: Count(pending, x) <= 1
      modifies `pending
      ensures pending == [r] + old(pending)
    {
      var rest := pending;
      pending := Put([], r);
      for i := 0 to |rest|
        invariant pending == [r] + rest[..i]
      {
        PutsAtEnd(r, rest, i);
        pending := Put(pending, rest[i]);
        assert [r] + rest[..i] + [rest[i]] == [r] + rest[..i + 1];
      }
      assert rest[..|rest|] == rest;
    }

    method FillUnconfirmed(id: nat)
      requires Accounted(Now())
      modifies `pending, `inFlight, `settled
      ensures Now() == Step(old(Now()), Unconfirmed(id))
      ensures id in old(inFlight) && old(inFlight)[id].fill ==> inFlight == old(inFlight) - {id}
      ensures id in old(inFlight) && old(inFlight)[id].fill ==>
        if approveWinId.Some? then pending == [old(inFlight)[id].(back := true)] + old(pending) && settled == old(settled)
        else pending == old(pending) && settled == old(settled) + [Settled(id, ApprovalClosed)]
    {
      if id !in inFlight || !inFlight[id].fill { return; }
      assert forall x: nat :: Copies(Now(), x) == if x < reqSeq then 1 else 0;
      var p := inFlight[id].(back := true);
      if approveWinId.None? {
        settled := settled + [Settled(id, ApprovalClosed)];
      } else {
        AtMostOnce(Now(), id);
        RequeueFront(p);
      }
      inFlight := inFlight - {id};
    }

    method WindowOpened(w: nat)
      modifies `approveWinId
      ensures Now() == Step(old(Now()), Opened(w))
      ensures approveWinId == if old(approveWinId) == None then Some(w) else old(approveWinId)
    {
      if approveWinId.None? { approveWinId := Some(w); }
    }

    method WindowClosed(w: nat)
      modifies `pending, `settled, `approveWinId
      ensures Now() == Step(old(Now()), Closed(w))
      ensures old(approveWinId) != Some(w) ==> unchanged(this)
      ensures old(approveWinId) == Some(w) ==>
        && approveWinId == None && pending == [] && |settled| == |old(settled)| + |old(pending)| && settled[..|old(settled)|] == old(settled)
        && forall i :: 0 <= i < |old(pending)| ==> settled[|old(settled)| + i] == Settled(old(pending)[i].id, ApprovalClosed)
    {
      if approveWinId != Some(w) { return; }
      approveWinId := None;
      for i := 0 to |pending|
        invariant settled == old(settled) + CloseAll(pending[..i])
      {
        assert pending[..i + 1][..i] == pending[..i];
        settled := settled + [Settled(pending[i].id, ApprovalClosed)];
      }
      assert pending[..|pending|] == pending;
      CloseAllIs(pending);
      pending := [];
    }
  }

  lemma AtMostOnce(s: State, id: nat)
    requires Accounted(s) && id in s.inFlight
    ensures Count(s.pending, id) == 0 && forall x: nat :: Count(s.pending, x) <= 1
  {
    assert Copies(s, id) == if id < s.made then 1 else 0;
    forall x: nat ensures Count(s.pending, x) <= 1 { assert Copies(s, x) == if x < s.made then 1 else 0; }
  }

  lemma {:induction false} PutNew(q: seq<Request>, r: Request)
    requires Count(q, r.id) == 0
    ensures Put(q, r) == q + [r]
  {
    if q != [] {
      assert q == [q[0]] + q[1..];
      HeadCount(q[0], q[1..], r.id);
      PutNew(q[1..], r);
    }
  }

  lemma {:induction false} CountSplit(a: seq<Request>, b: seq<Request>, id: nat)
    ensures Count(a + b, id) == Count(a, id) + Count(b, id)
  {
    if b == [] { assert a + b == a; }
    else {
      assert (a + b)[..|a + b| - 1] == a + b[..|b| - 1];
      CountSplit(a, b[..|b| - 1], id);
    }
  }

  lemma {:induction false} PutsAtEnd(r: Request, rest: seq<Request>, i: nat)
    requires i < |rest| && Count(rest, r.id) == 0 && forall x: nat :: Count(rest, x) <= 1
    ensures Put([r] + rest[..i], rest[i]) == [r] + rest[..i] + [rest[i]]
  {
    var x := rest[i].id;
    CountIn(rest, rest[i]);
    assert rest == rest[..i] + rest[i..] && rest[i..] == [rest[i]] + rest[i + 1..];
    CountSplit(rest[..i], rest[i..], x);
    HeadCount(rest[i], rest[i + 1..], x);
    HeadCount(r, rest[..i], x);
    PutNew([r] + rest[..i], rest[i]);
  }
}
