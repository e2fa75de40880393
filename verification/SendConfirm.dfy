// Review and Confirm of the two sends. Three counters and one latch decide what is signed: the review generation, the
// Confirm generation, the object identity of the frozen snapshot, and `submitting`. Every await (a review's reads, the
// name re-check, the submission) is a scheduling point, so clicks, sheet switches and locks fall between any two steps.

module SendConfirm {
  import opened Base

  datatype Flow = Csd | Token

  // A frozen review. `id` stands for the object's identity: every review that primes makes a new object.
  datatype Snap = Snap(id: nat, to: string, amount: nat, name: Option<string>, signer: string)

  datatype Both<T> = Both(csd: T, token: T) {
    function Of(f: Flow): T { if f.Csd? then csd else token }
    function With(f: Flow, v: T): Both<T> { if f.Csd? then this.(csd := v) else this.(token := v) }
  }

  datatype Confirming = Confirming(flow: Flow, snap: Snap)
  datatype Sent = Sent(snap: Snap, gen: nat)

  datatype State = State(
    sheet: Option<Flow>,             // the open send sheet
    reviewGen: nat,
    reviewed: Both<Option<Snap>>,    // reviewedSend, reviewed
    disabled: Both<bool>,            // the two Confirm buttons
    reviews: map<nat, Flow>,         // Review handlers waiting on their reads, by the generation each took
    confirms: map<nat, Confirming>,  // Confirm handlers waiting on the name re-check, by the generation each took
    confirmGen: nat,
    submitting: bool,
    inFlight: seq<Snap>,             // submissions not answered yet
    sent: seq<Sent>,                 // every submission so far, with the Confirm that made it
    made: nat)                       // snapshots made so far

  datatype Event =
    | Open(sheet: Option<Flow>)      // closeAllPanels, openPanel
    | Drop                           // Back, a lock, an account switch, a name action
    | Review(flow: Flow)
    | Prime(gen: nat, to: string, amount: nat, name: Option<string>, signer: string, hold: bool, left: bool)
    | Confirm(flow: Flow)
    | Rechecked(gen: nat, stillPoints: bool)
    | Outcome                        // the submission's answer or throw: every branch tears the review down

  const Start: State := State(None, 0, Both(None, None), Both(false, false), map[], map[], 0, false, [], [], 0)

  function Dropped(s: State): State { s.(reviewGen := s.reviewGen + 1, reviewed := Both(None, None)) }

  // runConfirm after its await: the waiting Confirm of this generation goes on.
  function Resume(s: State, gen: nat, stillPoints: bool): State
    requires gen in s.confirms
  {
    var c := s.confirms[gen];
    var t := s.(confirms := s.confirms - {gen});
    if gen != t.confirmGen then t
    else if t.reviewed.Of(c.flow) != Some(c.snap) then t
    else if !stillPoints then Dropped(t)
    else t.(reviewed := t.reviewed.With(c.flow, None), submitting := true,
            inFlight := t.inFlight + [c.snap], sent := t.sent + [Sent(c.snap, gen)])
  }

  // An event whose handler is not there (no such sheet, no such waiting call) changes nothing.
  function Step(s: State, e: Event): State {
    match e
    case Open(sheet) => Dropped(s).(sheet := sheet)
    case Drop => Dropped(s)
    case Review(f) =>
      if s.sheet != Some(f) then s
      else s.(reviewGen := s.reviewGen + 1, reviews := s.reviews[s.reviewGen + 1 := f])
    case Prime(gen, to, amount, name, signer, hold, left) =>
      if gen !in s.reviews then s
      else
        var f, t := s.reviews[gen], s.(reviews := s.reviews - {gen});
        if gen != s.reviewGen || left then t
        else t.(reviewed := t.reviewed.With(f, Some(Snap(s.made, to, amount, name, signer))),
                disabled := t.disabled.With(f, hold || s.submitting), made := s.made + 1)
    case Confirm(f) =>
      if s.reviewed.Of(f).None? || s.disabled.Of(f) then s
      else if s.reviewed.Of(f).value.name.None? then Resume(Clicked(s, f), s.confirmGen + 1, true)
      else Clicked(s, f)
    case Rechecked(gen, stillPoints) => if gen in s.confirms then Resume(s, gen, stillPoints) else s
    case Outcome => if s.inFlight == [] then s else Dropped(s.(inFlight := s.inFlight[1..], submitting := false))
  }

  // runConfirm up to its await.
  function Clicked(s: State, f: Flow): State
    requires s.reviewed.Of(f).Some?
  {
    s.(disabled := s.disabled.With(f, true), confirmGen := s.confirmGen + 1,
       confirms := s.confirms[s.confirmGen + 1 := Confirming(f, s.reviewed.Of(f).value)])
  }

  function Run(s: State, es: seq<Event>): State { if es == [] then s else Step(Run(s, es[..|es| - 1]), es[|es| - 1]) }

  // ---- The invariant ----

  ghost predicate ReviewsFit(s: State) {
    && (forall f: Flow :: s.reviewed.Of(f).Some? ==> s.sheet == Some(f) && s.reviewed.Of(f).value.id < s.made)
    && (forall g :: g in s.reviews ==> g <= s.reviewGen)
    && (s.reviewGen in s.reviews ==> s.sheet == Some(s.reviews[s.reviewGen]))
  }

  ghost predicate ConfirmsFit(s: State) {
    && (forall g :: g in s.confirms ==> g <= s.confirmGen)
    && (forall x :: x in s.sent ==> x.gen !in s.confirms)
  }

  ghost predicate SentFit(s: State) {
    && (forall x :: x in s.sent ==> x.gen <= s.confirmGen && x.snap.id < s.made)
    && (forall f: Flow, x :: x in s.sent && s.reviewed.Of(f).Some? ==> s.reviewed.Of(f).value.id != x.snap.id)
    && OneEach(s.sent)
  }

  // Every submission has its own snapshot and its own Confirm, later Confirms later.
  ghost predicate OneEach(sent: seq<Sent>) {
    forall i, j :: 0 <= i < j < |sent| ==> sent[i].gen < sent[j].gen && sent[i].snap.id != sent[j].snap.id
  }

  // While a submission is in flight no armed Confirm and no waiting one can start another.
  ghost predicate LatchHolds(s: State) {
    && |s.inFlight| == (if s.submitting then 1 else 0)
    && (s.submitting ==> forall f: Flow :: s.reviewed.Of(f).Some? ==> s.disabled.Of(f))
    && (s.submitting ==> s.confirmGen !in s.confirms)
  }

  ghost predicate Valid(s: State) { ReviewsFit(s) && ConfirmsFit(s) && SentFit(s) && LatchHolds(s) }

  lemma {:induction false} ResumeKeeps(s: State, gen: nat, stillPoints: bool)
    requires Valid(s) && gen in s.confirms
    ensures Valid(Resume(s, gen, stillPoints))
  {
    var t := Resume(s, gen, stillPoints);
    if t.sent != s.sent {
      var c := s.confirms[gen];
      assert s.sheet == Some(c.flow);
      assert forall x :: x in s.sent ==> x.gen < gen && x.snap.id != c.snap.id;
    }
  }

  lemma {:induction false} ClickKeeps(s: State, f: Flow)
    requires Valid(s) && s.reviewed.Of(f).Some? && !s.disabled.Of(f)
    ensures Valid(Clicked(s, f))
  {
  }

  lemma {:induction false} ReviewKeeps(s: State, e: Event)
    requires Valid(s) && (e.Open? || e.Drop? || e.Review?)
    ensures Valid(Step(s, e))
  {
    hide OneEach;
  }

  lemma {:induction false} PrimeKeeps(s: State, e: Event)
    requires Valid(s) && e.Prime?
    ensures Valid(Step(s, e))
  {
    hide OneEach;
    var t := Step(s, e);
    if e.gen in s.reviews && e.gen == s.reviewGen && !e.left {
      var own := s.reviews[e.gen];
      assert t.reviewed.Of(own).value.id == s.made;
      forall f: Flow | f != own ensures t.reviewed.Of(f).None? { assert t.reviewed.Of(f) == s.reviewed.Of(f); }
    }
  }

  lemma {:induction false} OutcomeKeeps(s: State)
    requires Valid(s)
    ensures Valid(Step(s, Outcome))
  {
    hide OneEach;
  }

  lemma {:induction false} StepKeeps(s: State, e: Event)
    requires Valid(s)
    ensures Valid(Step(s, e))
  {
    hide Valid, Resume, Clicked, Dropped;
    match e
    case Confirm(f) =>
      if s.reviewed.Of(f).Some? && !s.disabled.Of(f) {
        ClickKeeps(s, f);
        if s.reviewed.Of(f).value.name.None? {
          ClickWaits(s, f);
          ResumeKeeps(Clicked(s, f), s.confirmGen + 1, true);
        }
      }
    case Rechecked(gen, stillPoints) => if gen in s.confirms { ResumeKeeps(s, gen, stillPoints); }
    case Outcome => OutcomeKeeps(s);
    case Prime(_, _, _, _, _, _, _) => PrimeKeeps(s, e);
    case _ => ReviewKeeps(s, e);
  }

  lemma ClickWaits(s: State, f: Flow)
    requires s.reviewed.Of(f).Some?
    ensures s.confirmGen + 1 in Clicked(s, f).confirms
  {
  }

  lemma {:induction false} RunKeeps(es: seq<Event>)
    ensures Valid(Run(Start, es))
  {
    if es != [] {
      RunKeeps(es[..|es| - 1]);
      StepKeeps(Run(Start, es[..|es| - 1]), es[|es| - 1]);
    }
  }

  // ---- What a user can rely on ----

  // Over every interleaving: at most one submission in flight, and no snapshot and no Confirm submits twice.
  lemma OneSubmissionEach(es: seq<Event>)
    ensures |Run(Start, es).inFlight| <= 1
    ensures var sent := Run(Start, es).sent;
      forall i, j :: 0 <= i < |sent| && 0 <= j < |sent| && i != j ==> sent[i].gen != sent[j].gen && sent[i].snap.id != sent[j].snap.id
  {
    RunKeeps(es);
  }

  // What a step may submit: the flow's current snapshot, for the latest Confirm, with nothing else in flight, and only by
  // that Confirm's own click (no name to re-check) or by its re-check finding the name unmoved.
  ghost predicate Submits(s: State, e: Event, f: Flow, snap: Snap) {
    && s.reviewed.Of(f) == Some(snap) && !s.submitting
    && (|| (e == Confirm(f) && snap.name.None? && !s.disabled.Of(f))
        || (e.Rechecked? && e.stillPoints && e.gen == s.confirmGen && e.gen in s.confirms && s.confirms[e.gen] == Confirming(f, snap)))
  }

  lemma {:induction false} OnlyTheCurrentReview(s: State, e: Event)
    requires Valid(s)
    ensures var t := Step(s, e);
      && (t.sent != s.sent <==> exists f, snap :: Submits(s, e, f, snap))
      && (forall f, snap :: Submits(s, e, f, snap) ==> t.sent == s.sent + [Sent(snap, t.confirmGen)] && t.inFlight == [snap] && t.reviewed.Of(f).None?)
  {
    var t := Step(s, e);
    if t.sent != s.sent {
      if e.Confirm? {
        assert Submits(s, e, e.flow, s.reviewed.Of(e.flow).value);
      } else {
        assert Submits(s, e, s.confirms[e.gen].flow, s.confirms[e.gen].snap);
      }
    }
  }

  // Of several Reviews waiting on their reads only the latest primes: each takes a generation of its own, and an earlier
  // one's end changes no review and arms nothing.
  lemma {:induction false} OnlyTheLatestReviewPrimes(s: State, f: Flow, gen: nat, to: string, amount: nat, name: Option<string>, signer: string, hold: bool, left: bool)
    requires Valid(s) && s.sheet == Some(f) && gen in s.reviews
    ensures var t := Step(s, Review(f));
      && t.reviewGen !in s.reviews && t.reviewGen in t.reviews && t.reviews[t.reviewGen] == f && gen in t.reviews
      && Step(t, Prime(gen, to, amount, name, signer, hold, left)) == t.(reviews := t.reviews - {gen})
  {
  }

  // The current one, still there, freezes what it read under a new identity, and arms Confirm unless it is held back or a
  // submission is under way; the other flow's review stays.
  lemma PrimesWhatItRead(s: State, to: string, amount: nat, name: Option<string>, signer: string, hold: bool, left: bool, f: Flow)
    requires Valid(s) && s.reviewGen in s.reviews
    ensures var t, own := Step(s, Prime(s.reviewGen, to, amount, name, signer, hold, left)), s.reviews[s.reviewGen];
      if left then t == s.(reviews := s.reviews - {s.reviewGen})
      else
        && t.reviewed.Of(own).Some? && t.made == s.made + 1 && t.sent == s.sent && t.inFlight == s.inFlight
        && (var snap := t.reviewed.Of(own).value;
            snap.to == to && snap.amount == amount && snap.name == name && snap.signer == signer && snap.id == s.made)
        && (t.disabled.Of(own) <==> hold || s.submitting)
        && (f != own ==> t.reviewed.Of(f) == s.reviewed.Of(f) && t.disabled.Of(f) == s.disabled.Of(f))
  {
  }

  // A click that counts disarms its Confirm: clicking again changes nothing.
  lemma ClickDisarms(s: State, f: Flow)
    requires s.reviewed.Of(f).Some? && !s.disabled.Of(f)
    ensures Step(s, Confirm(f)).confirmGen == s.confirmGen + 1
    ensures Step(Step(s, Confirm(f)), Confirm(f)) == Step(s, Confirm(f))
  {
  }

  // After the reviews are dropped nothing is submitted until a new review primes.
  lemma {:induction false} DroppedSubmitsNothing(s: State, es: seq<Event>)
    requires s.reviewed == Both(None, None)
    requires forall e :: e in es ==> !e.Prime?
    ensures Run(s, es).sent == s.sent && Run(s, es).reviewed == Both(None, None)
  {
    if es != [] {
      assert forall e :: e in es[..|es| - 1] ==> e in es;
      DroppedSubmitsNothing(s, es[..|es| - 1]);
      assert es[|es| - 1] in es;
    }
  }

  // ---- The popup's variables, one method a section between two awaits ----

  class Popup {
    var sheet: Option<Flow>
    var reviewGen: nat
    var reviewed: Both<Option<Snap>>
    var disabled: Both<bool>
    var reviews: map<nat, Flow>
    var confirms: map<nat, Confirming>
    var confirmGen: nat
    var submitting: bool
    var inFlight: seq<Snap>
    ghost var sent: seq<Sent>
    var made: nat

    ghost function Now(): State reads this {
      State(sheet, reviewGen, reviewed, disabled, reviews, confirms, confirmGen, submitting, inFlight, sent, made)
    }

    constructor ()
      ensures Now() == Start && Valid(Now())
    {
      sheet, reviewGen, reviewed, disabled := None, 0, Both(None, None), Both(false, false);
      reviews, confirms, confirmGen, submitting := map[], map[], 0, false;
      inFlight, sent, made := [], [], 0;
    }

    method DropReviews()
      modifies `reviewGen, `reviewed
      ensures Now() == Step(old(Now()), Drop)
    {
      reviewGen, reviewed := reviewGen + 1, Both(None, None);
    }

    method OpenSheet(f: Option<Flow>)
      modifies `sheet, `reviewGen, `reviewed
      ensures Now() == Step(old(Now()), Open(f))
    {
      DropReviews();
      sheet := f;
    }

    method BeginReview(f: Flow)
      modifies `reviewGen, `reviews
      ensures Now() == Step(old(Now()), Review(f))
    {
      if sheet != Some(f) { return; }
      reviewGen := reviewGen + 1;
      reviews := reviews[reviewGen := f];
    }

    // A Review whose reads are done freezes its snapshot and arms Confirm, if it is still current.
    method PrimeReview(gen: nat, to: string, amount: nat, name: Option<string>, signer: string, hold: bool, left: bool)
      modifies `reviews, `reviewed, `disabled, `made
      ensures Now() == Step(old(Now()), Prime(gen, to, amount, name, signer, hold, left))
    {
      if gen !in reviews { return; }
      var f := reviews[gen];
      reviews := reviews - {gen};
      if gen != reviewGen || left { return; }
      reviewed := reviewed.With(f, Some(Snap(made, to, amount, name, signer)));
      made := made + 1;
      disabled := disabled.With(f, hold || submitting);
    }

    method RunConfirm(f: Flow)
      modifies this
      ensures Now() == Step(old(Now()), Confirm(f))
    {
      var snap := reviewed.Of(f);
      if snap.None? || disabled.Of(f) { return; }
      disabled := disabled.With(f, true);
      confirmGen := confirmGen + 1;
      confirms := confirms[confirmGen := Confirming(f, snap.value)];
      if snap.value.name.None? { Recheck(confirmGen, true); }
    }

    // runConfirm after the name re-check.
    method Recheck(gen: nat, stillPoints: bool)
      modifies this
      ensures Now() == Step(old(Now()), Rechecked(gen, stillPoints))
    {
      if gen !in confirms { return; }
      var c := confirms[gen];
      confirms := confirms - {gen};
      if gen != confirmGen || reviewed.Of(c.flow) != Some(c.snap) { return; }
      if !stillPoints { DropReviews(); return; }
      reviewed := reviewed.With(c.flow, None);
      submitting := true;
      inFlight, sent := inFlight + [c.snap], sent + [Sent(c.snap, gen)];
    }

    method Land()
      modifies this
      ensures Now() == Step(old(Now()), Outcome)
    {
      if inFlight == [] { return; }
      inFlight, submitting := inFlight[1..], false;
      DropReviews();
    }
  }
}
