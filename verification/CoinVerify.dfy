// Proving the value of every selected coin before anything is signed: the verdict on one coin, the worker pool that
// asks for them, and what the answers add up to.

module CoinVerify {
  import opened Base
  import opened Transactions
  import opened Blocks
  import opened CoinSelect

  // ---- One coin ----

  // A node's answer for a coin's source transaction. `representable`: no number in the body lost precision when it
  // was parsed; `tx` is None when the body does not decode.
  datatype Reply =
    | Unreachable | NotFound404 | Busy503(scanHorizon: bool) | OtherStatus | NotJson | NoTx
    | Served(representable: bool, tx: Option<Transaction>)

  datatype Verdict = Value(v: int) | NotFound | Horizon | Unrepresentable | Transient | Tamper

  predicate IsValue(v: int) { 0 < v <= MAX_SAFE }

  function VerdictOn(at: Outpoint, reply: Reply): Verdict {
    match reply
    case Unreachable => Transient
    case NotFound404 => NotFound
    case Busy503(scanHorizon) => if scanHorizon then Horizon else Transient
    case OtherStatus => Transient
    case NotJson => Transient
    case NoTx => NotFound
    case Served(representable, tx) =>
      if !representable then Unrepresentable
      else if tx.None? || Txid(tx.value) != at.txid then Tamper
      else if !(0 <= at.vout < |tx.value.outputs|) then Tamper
      else if !IsValue(tx.value.outputs[at.vout].value) then Tamper
      else Value(tx.value.outputs[at.vout].value)
  }

  // The value the outpoint's own transaction gives it.
  function OnChain(at: Outpoint): Option<int> {
    if at.txid.TxHash? && 0 <= at.vout < |at.txid.stripped.outputs| then Some(at.txid.stripped.outputs[at.vout].value) else None
  }

  // A numeric verdict is the coin's real value, whatever was served.
  lemma ValueIsOnChain(at: Outpoint, reply: Reply)
    ensures VerdictOn(at, reply).Value? ==> OnChain(at) == Some(VerdictOn(at, reply).v) && IsValue(VerdictOn(at, reply).v)
  {
  }

  // Which replies refuse the whole spend: no clear answer, or a body that is not the coin's.
  lemma DecisiveIff(at: Outpoint, reply: Reply)
    ensures Decisive(VerdictOn(at, reply)) <==>
      || reply.Unreachable? || reply.OtherStatus? || reply.NotJson? || reply == Busy503(false)
      || (reply.Served? && reply.representable && !ServesCoin(at, reply.tx))
    ensures VerdictOn(at, reply).Tamper? <==> reply.Served? && reply.representable && !ServesCoin(at, reply.tx)
  {
  }

  // Which ones skip the coin alone: proved absent, out of the node's reach, or carrying a number that is not exact. What
  // is left proves it.
  lemma SkippableIff(at: Outpoint, reply: Reply)
    ensures VerdictOn(at, reply) == NotFound <==> reply.NotFound404? || reply.NoTx?
    ensures VerdictOn(at, reply) == Horizon <==> reply == Busy503(true)
    ensures VerdictOn(at, reply) == Unrepresentable <==> reply.Served? && !reply.representable
    ensures VerdictOn(at, reply).Value? <==> reply.Served? && reply.representable && ServesCoin(at, reply.tx)
  {
  }

  // The body is the coin's own transaction, and it gives the coin a value an amount can have.
  predicate ServesCoin(at: Outpoint, tx: Option<Transaction>) {
    && tx.Some? && Txid(tx.value) == at.txid && OnChain(at).Some? && 0 < OnChain(at).value <= 0x1F_FFFF_FFFF_FFFF
  }

  // ---- The pool ----

  predicate Decisive(v: Verdict) { v.Tamper? || v.Transient? }

  datatype Worker = Idle | Asking(k: nat) | Done

  // Enough slots are filled to fold: all of them, or a decisive one.
  ghost predicate Settled(out: seq<Option<Verdict>>) {
    (forall k :: 0 <= k < |out| ==> out[k].Some?) || (exists k :: 0 <= k < |out| && out[k].Some? && Decisive(out[k].value))
  }

  // Filled slots hold the coin's own verdict.
  ghost predicate Faithful(out: seq<Option<Verdict>>, verdicts: seq<Verdict>) {
    |out| == |verdicts| && forall k :: 0 <= k < |out| && out[k].Some? ==> out[k].value == verdicts[k]
  }

  function Weight(w: Worker): nat { match w case Done => 0 case Idle => 1 case Asking(_) => 2 }

  function Weights(ws: seq<Worker>): nat { if ws == [] then 0 else Weights(ws[..|ws| - 1]) + Weight(ws[|ws| - 1]) }

  lemma {:induction false} WeightsUpdate(ws: seq<Worker>, i: nat, w: Worker)
    requires i < |ws|
    ensures Weights(ws[i := w]) == Weights(ws) - Weight(ws[i]) + Weight(w)
  {
    var n := |ws| - 1;
    if i == n {
      assert ws[i := w][..n] == ws[..n];
    } else {
      assert ws[i := w][..n] == ws[..n][i := w];
      WeightsUpdate(ws[..n], i, w);
    }
  }

  ghost predicate PoolInv(out: seq<Option<Verdict>>, verdicts: seq<Verdict>, ws: seq<Worker>, next: nat, stop: bool) {
    && Faithful(out, verdicts)
    && (forall k :: 0 <= k < |out| && k < next ==> out[k].Some? || exists i :: 0 <= i < |ws| && ws[i] == Asking(k))
    && (forall i :: 0 <= i < |ws| && ws[i].Asking? ==> ws[i].k < |out|)
    && (forall i :: 0 <= i < |ws| && ws[i].Done? ==> stop || next >= |out|)
    && (stop ==> exists k :: 0 <= k < |out| && out[k].Some? && Decisive(out[k].value))
  }

  // One worker's next step: its answer arrives, or it claims the next coin, or it leaves.
  method WorkerStep(out: seq<Option<Verdict>>, verdicts: seq<Verdict>, ws: seq<Worker>, next: nat, stop: bool, i: nat)
    returns (out': seq<Option<Verdict>>, ws': seq<Worker>, next': nat, stop': bool)
    requires i < |ws| && !ws[i].Done? && PoolInv(out, verdicts, ws, next, stop)
    ensures PoolInv(out', verdicts, ws', next', stop') && |ws'| == |ws|
    ensures 3 * Max(0, |out'| - next') + Weights(ws') < 3 * Max(0, |out| - next) + Weights(ws)
  {
    out', ws', next', stop' := out, ws, next, stop;
    if ws[i].Asking? {
      var k := ws[i].k;
      out' := out[k := Some(verdicts[k])];
      if Decisive(verdicts[k]) { stop' := true; }
      ws' := ws[i := Idle];
      WeightsUpdate(ws, i, Idle);
      assert out'[k].Some?;
      forall j | 0 <= j < |out'| && j < next' ensures out'[j].Some? || exists m :: 0 <= m < |ws'| && ws'[m] == Asking(j) {
        if out[j].None? && j != k {
          var m :| 0 <= m < |ws| && ws[m] == Asking(j);
          assert ws'[m] == Asking(j);
        }
      }
      if stop && !Decisive(verdicts[k]) {
        var d :| 0 <= d < |out| && out[d].Some? && Decisive(out[d].value);
        assert out'[d] == out[d];
      }
    } else if stop {
      ws' := ws[i := Done];
      WeightsUpdate(ws, i, Done);
      StillAsked(out, ws, ws', next, i);
    } else {
      next' := next + 1;
      ws' := ws[i := if next < |out| then Asking(next) else Done];
      WeightsUpdate(ws, i, ws'[i]);
      StillAsked(out, ws, ws', next, i);
    }
  }

  lemma StillAsked(out: seq<Option<Verdict>>, ws: seq<Worker>, ws': seq<Worker>, next: nat, i: nat)
    requires i < |ws| == |ws'| && !ws[i].Asking? && forall m :: 0 <= m < |ws| && m != i ==> ws'[m] == ws[m]
    requires forall k :: 0 <= k < |out| && k < next ==> out[k].Some? || exists m :: 0 <= m < |ws| && ws[m] == Asking(k)
    ensures forall k :: 0 <= k < |out| && k < next ==> out[k].Some? || exists m :: 0 <= m < |ws'| && ws'[m] == Asking(k)
  {
    forall k | 0 <= k < |out| && k < next && out[k].None? ensures exists m :: 0 <= m < |ws'| && ws'[m] == Asking(k) {
      var m :| 0 <= m < |ws| && ws[m] == Asking(k);
      assert ws'[m] == Asking(k);
    }
  }

  // mapLimit. Which worker moves next is the event loop's choice; whatever it is, the slots end up settled.
  method MapLimit(verdicts: seq<Verdict>, limit: nat) returns (out: seq<Option<Verdict>>)
    ensures Faithful(out, verdicts) && Settled(out)
  {
    out := seq(|verdicts|, _ => None);
    var ws: seq<Worker> := seq(Max(1, Min(limit, |verdicts|)), _ => Idle);
    var next, stop := 0, false;
    while exists i :: 0 <= i < |ws| && !ws[i].Done?
      invariant PoolInv(out, verdicts, ws, next, stop) && |ws| >= 1
      decreases 3 * Max(0, |out| - next) + Weights(ws)
    {
      var i :| 0 <= i < |ws| && !ws[i].Done?;
      out, ws, next, stop := WorkerStep(out, verdicts, ws, next, stop, i);
    }
    assert ws[0].Done?;
  }

  // ---- The sum ----

  datatype Skipped = Horizons | Unrepresentables | Ghosts

  datatype Verification =
    | Verified(total: int)
    | TamperRefused
    | TransientRefused
    | SkipCoins(class_: Skipped, coins: seq<Coin>, ghosts: seq<Coin>)

  function VerdictOf(class_: Skipped): Verdict {
    match class_ case Horizons => Horizon case Unrepresentables => Unrepresentable case Ghosts => NotFound
  }

  // The inputs with a verdict, in order.
  function With(inputs: seq<Coin>, verdicts: seq<Verdict>, v: Verdict): seq<Coin>
    requires |inputs| == |verdicts|
  {
    if inputs == [] then []
    else
      var n := |inputs| - 1;
      var rest := With(inputs[..n], verdicts[..n], v);
      if verdicts[n] == v then rest + [inputs[n]] else rest
  }

  lemma {:induction false} WithIs(inputs: seq<Coin>, verdicts: seq<Verdict>, v: Verdict)
    requires |inputs| == |verdicts|
    ensures forall c :: c in With(inputs, verdicts, v) <==> exists k :: 0 <= k < |inputs| && inputs[k] == c && verdicts[k] == v
    ensures With(inputs, verdicts, v) == [] <==> v !in verdicts
  {
    if inputs != [] {
      var n := |inputs| - 1;
      WithIs(inputs[..n], verdicts[..n], v);
      assert verdicts == verdicts[..n] + [verdicts[n]];
      forall c ensures c in With(inputs, verdicts, v) <==> exists k :: 0 <= k < |inputs| && inputs[k] == c && verdicts[k] == v {
        if k :| 0 <= k < |inputs| && inputs[k] == c && verdicts[k] == v {
          if k < n { assert inputs[..n][k] == c && verdicts[..n][k] == v; }
        }
        if c in With(inputs[..n], verdicts[..n], v) {
          var k :| 0 <= k < n && inputs[..n][k] == c && verdicts[..n][k] == v;
          assert inputs[k] == c && verdicts[k] == v;
        }
      }
    }
  }

  function Total(verdicts: seq<Verdict>): int {
    if verdicts == [] then 0
    else Total(verdicts[..|verdicts| - 1]) + if verdicts[|verdicts| - 1].Value? then verdicts[|verdicts| - 1].v else 0
  }

  // What the verdicts come to when none is decisive.
  function Folded(inputs: seq<Coin>, verdicts: seq<Verdict>): Verification
    requires |inputs| == |verdicts|
  {
    var ghosts := With(inputs, verdicts, NotFound);
    if Horizon in verdicts then SkipCoins(Horizons, With(inputs, verdicts, Horizon), ghosts)
    else if Unrepresentable in verdicts then SkipCoins(Unrepresentables, With(inputs, verdicts, Unrepresentable), ghosts)
    else if NotFound in verdicts then SkipCoins(Ghosts, ghosts, ghosts)
    else if IsSafe(Total(verdicts)) then Verified(Total(verdicts))
    else TamperRefused
  }

  // verifyInputValues. An answer that no verdict decides is a function of the verdicts alone, whatever the schedule;
  // once one decides, the spend is refused as one of the deciding verdicts present says.
  method VerifyInputValues(inputs: seq<Coin>, verdicts: seq<Verdict>) returns (r: Verification)
    requires |inputs| == |verdicts| && forall k :: 0 <= k < |verdicts| && verdicts[k].Value? ==> IsValue(verdicts[k].v)
    ensures (forall v :: v in verdicts ==> !Decisive(v)) ==> r == Folded(inputs, verdicts)
    ensures (exists v :: v in verdicts && Decisive(v)) ==>
      (r == TamperRefused && Tamper in verdicts) || (r == TransientRefused && Transient in verdicts)
  {
    var out := MapLimit(verdicts, 8);
    if Some(Tamper) in out {
      assert Tamper in verdicts;
      return TamperRefused;
    }
    if Some(Transient) in out {
      assert Transient in verdicts;
      return TransientRefused;
    }
    assert forall k :: 0 <= k < |out| ==> out[k] == Some(verdicts[k]) && !Decisive(verdicts[k]);
    var ghosts := With(inputs, verdicts, NotFound);
    WithIs(inputs, verdicts, NotFound);
    WithIs(inputs, verdicts, Horizon);
    WithIs(inputs, verdicts, Unrepresentable);
    if With(inputs, verdicts, Horizon) != [] { return SkipCoins(Horizons, With(inputs, verdicts, Horizon), ghosts); }
    if With(inputs, verdicts, Unrepresentable) != [] { return SkipCoins(Unrepresentables, With(inputs, verdicts, Unrepresentable), ghosts); }
    if ghosts != [] { return SkipCoins(Ghosts, ghosts, ghosts); }
    var total := 0;
    for k := 0 to |out|
      invariant total == Total(verdicts[..k]) && 0 <= total <= MAX_SAFE
    {
      assert verdicts[..k + 1][..k] == verdicts[..k];
      assert verdicts[k] in verdicts && verdicts[k].Value?;
      total := total + out[k].value.v;
      if !IsSafe(total) {
        TotalGrows(verdicts, k + 1);
        return TamperRefused;
      }
    }
    assert verdicts[..|out|] == verdicts;
    r := Verified(total);
  }

  lemma {:induction false} TotalGrows(verdicts: seq<Verdict>, k: nat)
    requires k <= |verdicts| && forall j :: 0 <= j < |verdicts| && verdicts[j].Value? ==> IsValue(verdicts[j].v)
    ensures Total(verdicts[..k]) <= Total(verdicts)
    decreases |verdicts| - k
  {
    if k < |verdicts| {
      TotalGrows(verdicts, k + 1);
      assert verdicts[..k + 1][..k] == verdicts[..k];
    } else {
      assert verdicts[..k] == verdicts;
    }
  }

  // The answer is a total exactly when every coin has a value and their sum is safe, and it is that sum; a skip lists
  // every ghost and every coin of its class, and only those.
  lemma FoldedMeans(inputs: seq<Coin>, verdicts: seq<Verdict>)
    requires |inputs| == |verdicts| && forall v :: v in verdicts ==> !Decisive(v)
    ensures var r := Folded(inputs, verdicts);
      && (r.Verified? <==> (forall k :: 0 <= k < |verdicts| ==> verdicts[k].Value?) && IsSafe(Total(verdicts)))
      && (r.SkipCoins? ==>
           && r.coins != []
           && (forall c :: c in r.coins <==> exists k :: 0 <= k < |inputs| && inputs[k] == c && verdicts[k] == VerdictOf(r.class_))
           && (forall c :: c in r.ghosts <==> exists k :: 0 <= k < |inputs| && inputs[k] == c && verdicts[k] == NotFound))
  {
    WithIs(inputs, verdicts, NotFound);
    WithIs(inputs, verdicts, Horizon);
    WithIs(inputs, verdicts, Unrepresentable);
    if Folded(inputs, verdicts).Verified? {
      forall k | 0 <= k < |verdicts| ensures verdicts[k].Value? { assert verdicts[k] in verdicts; }
    }
  }
}
