// Transactions, and the byte codec the wallet signs and hashes.

module Transactions {
  type Byte = n: int | 0 <= n < 256
  type Bytes = seq<Byte>

  // `H` is how a 32-byte hash is written: bytes for the codec, hash terms where only their identity matters.
  datatype Input<H> = Input(prevTxid: H, vout: nat, scriptSig: Bytes)
  datatype Output = Output(value: nat, scriptPubkey: Bytes)
  datatype App<H> =
    | NoApp
    | Propose(domain: Bytes, payloadHash: Bytes, uri: Bytes, expiresEpoch: nat)
    | Attest(proposalId: H, score: nat, confidence: nat)
  datatype Tx<H> = Tx(version: nat, inputs: seq<Input<H>>, outputs: seq<Output>, locktime: nat, app: App<H>)

  const NO_VOUT: nat := 0xFFFF_FFFF

  predicate IsCoinbase<H(==)>(i: Input<H>, zero: H) { i.prevTxid == zero && i.vout == NO_VOUT }

  function StripInput<H(==)>(i: Input<H>, zero: H): Input<H> {
    if IsCoinbase(i, zero) then i else i.(scriptSig := [])
  }

  // The transaction a txid and a sighash commit to: every script signature blanked but a coinbase's.
  function Stripped<H(==)>(tx: Tx<H>, zero: H): Tx<H> {
    tx.(inputs := seq(|tx.inputs|, i requires 0 <= i < |tx.inputs| => StripInput(tx.inputs[i], zero)))
  }

  // Same transaction but for what signers fill in.
  ghost predicate SameButSignatures<H>(a: Tx<H>, b: Tx<H>, zero: H) {
    && a.version == b.version && a.outputs == b.outputs && a.locktime == b.locktime && a.app == b.app
    && |a.inputs| == |b.inputs|
    && forall i :: 0 <= i < |a.inputs| ==>
         && a.inputs[i].prevTxid == b.inputs[i].prevTxid && a.inputs[i].vout == b.inputs[i].vout
         && (IsCoinbase(a.inputs[i], zero) ==> a.inputs[i].scriptSig == b.inputs[i].scriptSig)
  }

  lemma StrippedEqual<H>(a: Tx<H>, b: Tx<H>, zero: H)
    ensures Stripped(a, zero) == Stripped(b, zero) <==> SameButSignatures(a, b, zero)
  {
    var sa, sb := Stripped(a, zero), Stripped(b, zero);
    assert forall i :: 0 <= i < |a.inputs| ==> sa.inputs[i] == StripInput(a.inputs[i], zero);
    assert forall i :: 0 <= i < |b.inputs| ==> sb.inputs[i] == StripInput(b.inputs[i], zero);
    if SameButSignatures(a, b, zero) {
      assert sa.inputs == sb.inputs;
    }
    if sa == sb {
      forall i | 0 <= i < |a.inputs|
        ensures a.inputs[i].prevTxid == b.inputs[i].prevTxid && a.inputs[i].vout == b.inputs[i].vout
        ensures IsCoinbase(a.inputs[i], zero) ==> a.inputs[i].scriptSig == b.inputs[i].scriptSig
      {
        assert sa.inputs[i] == sb.inputs[i];
      }
    }
  }
}

module TxCodec {
  import opened Base
  import opened Transactions

  type Raw = Tx<Bytes>

  // ---- Fixed-width little-endian integers ----

  function Pow256(k: nat): nat { if k == 0 then 1 else 256 * Pow256(k - 1) }

  function LE(n: nat, k: nat): (b: Bytes)
    ensures |b| == k
  {
    if k == 0 then [] else [n % 256] + LE(n / 256, k - 1)
  }

  function FromLE(b: Bytes): nat { if b == [] then 0 else b[0] + 256 * FromLE(b[1..]) }

  lemma {:induction false} FromLEInverts(n: nat, k: nat)
    requires n < Pow256(k)
    ensures FromLE(LE(n, k)) == n
    decreases k
  {
    if k > 0 { FromLEInverts(n / 256, k - 1); }
  }

  // The buffer fill of `u32` and `u64`: the integer wraps to the buffer's width.
  method Fill(n: nat, k: nat) returns (b: Bytes)
    ensures b == LE(n, k)
  {
    var buf := new Byte[k];
    var rest, i := n, 0;
    while i < k
      invariant 0 <= i <= k
      invariant LE(n, k) == buf[..i] + LE(rest, k - i)
    {
      buf[i] := rest % 256;
      rest := rest / 256;
      i := i + 1;
    }
    b := buf[..];
  }

  // Writing k bytes keeps exactly the value modulo 256^k.
  lemma {:induction false} LEWraps(n: nat, k: nat)
    ensures FromLE(LE(n, k)) < Pow256(k)
    ensures exists q: nat :: n == q * Pow256(k) + FromLE(LE(n, k))
    decreases k
  {
    if k == 0 {
      assert n == n * Pow256(0) + FromLE(LE(n, 0));
    } else {
      LEWraps(n / 256, k - 1);
      var q: nat :| n / 256 == q * Pow256(k - 1) + FromLE(LE(n / 256, k - 1));
      assert n == 256 * (q * Pow256(k - 1) + FromLE(LE(n / 256, k - 1))) + n % 256;
      assert 256 * (q * Pow256(k - 1)) == q * Pow256(k);
      assert n == q * Pow256(k) + FromLE(LE(n, k));
    }
  }

  // ---- What `serialize` writes ----

  function LenBytes(b: Bytes): Bytes { LE(|b|, 8) + b }

  function InputBytes(i: Input<Bytes>): Bytes { i.prevTxid + LE(i.vout, 4) + LenBytes(i.scriptSig) }

  function OutputBytes(o: Output): Bytes { LE(o.value, 8) + o.scriptPubkey }

  function AppBytes(app: App<Bytes>): Bytes {
    match app
    case NoApp => LE(0, 4)
    case Propose(domain, payloadHash, uri, expires) => LE(1, 4) + LenBytes(domain) + payloadHash + LenBytes(uri) + LE(expires, 8)
    case Attest(proposalId, score, confidence) => LE(2, 4) + proposalId + LE(score, 4) + LE(confidence, 4)
  }

  function InputsBytes(ins: seq<Input<Bytes>>): Bytes {
    if ins == [] then [] else InputBytes(ins[0]) + InputsBytes(ins[1..])
  }

  function OutputsBytes(os: seq<Output>): Bytes {
    if os == [] then [] else OutputBytes(os[0]) + OutputsBytes(os[1..])
  }

  function TxBytes(tx: Raw): Bytes {
    LE(tx.version, 4) + LE(|tx.inputs|, 8) + InputsBytes(tx.inputs)
    + LE(|tx.outputs|, 8) + OutputsBytes(tx.outputs) + LE(tx.locktime, 4) + AppBytes(tx.app)
  }

  lemma {:induction false} InputsSnoc(ins: seq<Input<Bytes>>, i: Input<Bytes>)
    ensures InputsBytes(ins + [i]) == InputsBytes(ins) + InputBytes(i)
  {
    if ins == [] {
      assert ins + [i] == [i];
    } else {
      assert (ins + [i])[1..] == ins[1..] + [i];
      InputsSnoc(ins[1..], i);
    }
  }

  lemma {:induction false} OutputsSnoc(os: seq<Output>, o: Output)
    ensures OutputsBytes(os + [o]) == OutputsBytes(os) + OutputBytes(o)
  {
    if os == [] {
      assert os + [o] == [o];
    } else {
      assert (os + [o])[1..] == os[1..] + [o];
      OutputsSnoc(os[1..], o);
    }
  }

  // `hbFixed` refuses a field of another width.
  predicate FixedWidths(tx: Raw) {
    && (forall i :: i in tx.inputs ==> |i.prevTxid| == 32)
    && (forall o :: o in tx.outputs ==> |o.scriptPubkey| == 20)
    && AppWidths(tx.app)
  }

  predicate AppWidths(app: App<Bytes>) {
    (app.Propose? ==> |app.payloadHash| == 32) && (app.Attest? ==> |app.proposalId| == 32)
  }

  method SerializeInputs(ins: seq<Input<Bytes>>) returns (r: Option<Bytes>)
    ensures r == if forall i :: i in ins ==> |i.prevTxid| == 32 then Some(InputsBytes(ins)) else None
  {
    var out: Bytes := [];
    for i := 0 to |ins|
      invariant forall j :: 0 <= j < i ==> |ins[j].prevTxid| == 32
      invariant out == InputsBytes(ins[..i])
    {
      if |ins[i].prevTxid| != 32 { return None; }
      InputsSnoc(ins[..i], ins[i]);
      assert ins[..i + 1] == ins[..i] + [ins[i]];
      out := out + InputBytes(ins[i]);
    }
    assert ins[..|ins|] == ins;
    r := Some(out);
  }

  method SerializeOutputs(os: seq<Output>) returns (r: Option<Bytes>)
    ensures r == if forall o :: o in os ==> |o.scriptPubkey| == 20 then Some(OutputsBytes(os)) else None
  {
    var out: Bytes := [];
    for i := 0 to |os|
      invariant forall j :: 0 <= j < i ==> |os[j].scriptPubkey| == 20
      invariant out == OutputsBytes(os[..i])
    {
      if |os[i].scriptPubkey| != 20 { return None; }
      OutputsSnoc(os[..i], os[i]);
      assert os[..i + 1] == os[..i] + [os[i]];
      out := out + OutputBytes(os[i]);
    }
    assert os[..|os|] == os;
    r := Some(out);
  }

  method Serialize(tx: Raw) returns (r: Option<Bytes>)
    ensures r == if FixedWidths(tx) then Some(TxBytes(tx)) else None
    ensures r.Some? <==>
      && (forall i :: i in tx.inputs ==> |i.prevTxid| == 32) && (forall o :: o in tx.outputs ==> |o.scriptPubkey| == 20)
      && (tx.app.Propose? ==> |tx.app.payloadHash| == 32) && (tx.app.Attest? ==> |tx.app.proposalId| == 32)
  {
    var ins := SerializeInputs(tx.inputs);
    var outs := SerializeOutputs(tx.outputs);
    if ins.None? || outs.None? || !AppWidths(tx.app) { return None; }
    r := Some(LE(tx.version, 4) + LE(|tx.inputs|, 8) + ins.value
              + LE(|tx.outputs|, 8) + outs.value + LE(tx.locktime, 4) + AppBytes(tx.app));
  }

  // ---- A decoder ----

  type Parsed<T> = Option<(T, Bytes)>

  function Take(b: Bytes, n: nat): Parsed<Bytes> { if n <= |b| then Some((b[..n], b[n..])) else None }

  function TakeInt(b: Bytes, k: nat): Parsed<nat> {
    var t := Take(b, k);
    if t.None? then None else Some((FromLE(t.value.0), t.value.1))
  }

  function TakeLen(b: Bytes): Parsed<Bytes> {
    var n := TakeInt(b, 8);
    if n.None? then None else Take(n.value.1, n.value.0)
  }

  function TakeInput(b: Bytes): Parsed<Input<Bytes>> {
    var p := Take(b, 32);
    if p.None? then None else
    var v := TakeInt(p.value.1, 4);
    if v.None? then None else
    var s := TakeLen(v.value.1);
    if s.None? then None else Some((Input(p.value.0, v.value.0, s.value.0), s.value.1))
  }

  function TakeOutput(b: Bytes): Parsed<Output> {
    var v := TakeInt(b, 8);
    if v.None? then None else
    var s := Take(v.value.1, 20);
    if s.None? then None else Some((Output(v.value.0, s.value.0), s.value.1))
  }

  function TakeInputs(b: Bytes, n: nat): Parsed<seq<Input<Bytes>>> {
    if n == 0 then Some(([], b)) else
    var i := TakeInput(b);
    if i.None? then None else
    var rest := TakeInputs(i.value.1, n - 1);
    if rest.None? then None else Some(([i.value.0] + rest.value.0, rest.value.1))
  }

  function TakeOutputs(b: Bytes, n: nat): Parsed<seq<Output>> {
    if n == 0 then Some(([], b)) else
    var o := TakeOutput(b);
    if o.None? then None else
    var rest := TakeOutputs(o.value.1, n - 1);
    if rest.None? then None else Some(([o.value.0] + rest.value.0, rest.value.1))
  }

  function TakePropose(b: Bytes): Parsed<App<Bytes>> {
    var d := TakeLen(b);
    if d.None? then None else
    var h := Take(d.value.1, 32);
    if h.None? then None else
    var u := TakeLen(h.value.1);
    if u.None? then None else
    var e := TakeInt(u.value.1, 8);
    if e.None? then None else Some((Propose(d.value.0, h.value.0, u.value.0, e.value.0), e.value.1))
  }

  function TakeAttest(b: Bytes): Parsed<App<Bytes>> {
    var p := Take(b, 32);
    if p.None? then None else
    var s := TakeInt(p.value.1, 4);
    if s.None? then None else
    var c := TakeInt(s.value.1, 4);
    if c.None? then None else Some((Attest(p.value.0, s.value.0, c.value.0), c.value.1))
  }

  function TakeApp(b: Bytes): Parsed<App<Bytes>> {
    var t := TakeInt(b, 4);
    if t.None? then None
    else if t.value.0 == 0 then Some((NoApp, t.value.1))
    else if t.value.0 == 1 then TakePropose(t.value.1)
    else if t.value.0 == 2 then TakeAttest(t.value.1)
    else None
  }

  function TakeTx(b: Bytes): Parsed<Raw> {
    var v := TakeInt(b, 4);
    if v.None? then None else
    var ni := TakeInt(v.value.1, 8);
    if ni.None? then None else
    var ins := TakeInputs(ni.value.1, ni.value.0);
    if ins.None? then None else
    var no := TakeInt(ins.value.1, 8);
    if no.None? then None else
    var os := TakeOutputs(no.value.1, no.value.0);
    if os.None? then None else
    var l := TakeInt(os.value.1, 4);
    if l.None? then None else
    var a := TakeApp(l.value.1);
    if a.None? then None else Some((Tx(v.value.0, ins.value.0, os.value.0, l.value.0, a.value.0), a.value.1))
  }

  // ---- The decoder undoes the codec ----

  predicate IsU32(n: nat) { n < 0x1_0000_0000 }

  predicate IsU64(n: nat) { n < 0x1_0000_0000_0000_0000 }

  predicate InputInRange(i: Input<Bytes>) { |i.prevTxid| == 32 && IsU32(i.vout) && IsU64(|i.scriptSig|) }

  predicate OutputInRange(o: Output) { IsU64(o.value) && |o.scriptPubkey| == 20 }

  predicate AppInRange(app: App<Bytes>) {
    match app
    case NoApp => true
    case Propose(domain, payloadHash, uri, expires) => IsU64(|domain|) && |payloadHash| == 32 && IsU64(|uri|) && IsU64(expires)
    case Attest(proposalId, score, confidence) => |proposalId| == 32 && IsU32(score) && IsU32(confidence)
  }

  predicate InRange(tx: Raw) {
    && IsU32(tx.version) && IsU32(tx.locktime) && IsU64(|tx.inputs|) && IsU64(|tx.outputs|)
    && (forall i :: i in tx.inputs ==> InputInRange(i))
    && (forall o :: o in tx.outputs ==> OutputInRange(o))
    && AppInRange(tx.app)
  }

  lemma TakeCat(a: Bytes, rest: Bytes)
    ensures Take(a + rest, |a|) == Some((a, rest))
  {
    assert (a + rest)[..|a|] == a && (a + rest)[|a|..] == rest;
  }

  lemma IntBack(n: nat, k: nat, rest: Bytes)
    requires n < Pow256(k)
    ensures TakeInt(LE(n, k) + rest, k) == Some((n, rest))
  {
    TakeCat(LE(n, k), rest);
    FromLEInverts(n, k);
  }

  lemma Widths()
    ensures Pow256(4) == 0x1_0000_0000 && Pow256(8) == 0x1_0000_0000_0000_0000
  {
    assert Pow256(4) == 256 * Pow256(3) && Pow256(3) == 256 * Pow256(2) && Pow256(2) == 256 * Pow256(1) && Pow256(1) == 256;
    assert Pow256(8) == 256 * Pow256(7) && Pow256(7) == 256 * Pow256(6) && Pow256(6) == 256 * Pow256(5) && Pow256(5) == 256 * Pow256(4);
  }

  lemma LenBack(b: Bytes, rest: Bytes)
    requires IsU64(|b|)
    ensures TakeLen(LenBytes(b) + rest) == Some((b, rest))
  {
    Widths();
    assert LenBytes(b) + rest == LE(|b|, 8) + (b + rest);
    IntBack(|b|, 8, b + rest);
    TakeCat(b, rest);
  }

  lemma InputBack(i: Input<Bytes>, rest: Bytes)
    requires InputInRange(i)
    ensures TakeInput(InputBytes(i) + rest) == Some((i, rest))
  {
    Widths();
    var afterVout := LenBytes(i.scriptSig) + rest;
    var afterPrev := LE(i.vout, 4) + afterVout;
    assert InputBytes(i) + rest == i.prevTxid + afterPrev;
    TakeCat(i.prevTxid, afterPrev);
    IntBack(i.vout, 4, afterVout);
    LenBack(i.scriptSig, rest);
  }

  lemma OutputBack(o: Output, rest: Bytes)
    requires OutputInRange(o)
    ensures TakeOutput(OutputBytes(o) + rest) == Some((o, rest))
  {
    Widths();
    assert OutputBytes(o) + rest == LE(o.value, 8) + (o.scriptPubkey + rest);
    IntBack(o.value, 8, o.scriptPubkey + rest);
    TakeCat(o.scriptPubkey, rest);
  }

  lemma {:induction false} InputsBack(ins: seq<Input<Bytes>>, rest: Bytes)
    requires forall i :: i in ins ==> InputInRange(i)
    ensures TakeInputs(InputsBytes(ins) + rest, |ins|) == Some((ins, rest))
  {
    if ins != [] {
      assert InputsBytes(ins) + rest == InputBytes(ins[0]) + (InputsBytes(ins[1..]) + rest);
      InputBack(ins[0], InputsBytes(ins[1..]) + rest);
      InputsBack(ins[1..], rest);
      assert ins == [ins[0]] + ins[1..];
    } else {
      assert InputsBytes(ins) + rest == rest;
    }
  }

  lemma {:induction false} OutputsBack(os: seq<Output>, rest: Bytes)
    requires forall o :: o in os ==> OutputInRange(o)
    ensures TakeOutputs(OutputsBytes(os) + rest, |os|) == Some((os, rest))
  {
    if os != [] {
      assert OutputsBytes(os) + rest == OutputBytes(os[0]) + (OutputsBytes(os[1..]) + rest);
      OutputBack(os[0], OutputsBytes(os[1..]) + rest);
      OutputsBack(os[1..], rest);
      assert os == [os[0]] + os[1..];
    } else {
      assert OutputsBytes(os) + rest == rest;
    }
  }

  lemma ProposeBack(app: App<Bytes>, rest: Bytes)
    requires app.Propose? && AppInRange(app)
    ensures TakePropose(LenBytes(app.domain) + (app.payloadHash + (LenBytes(app.uri) + (LE(app.expiresEpoch, 8) + rest)))) == Some((app, rest))
  {
    Widths();
    hide LenBytes, TakeLen, TakeInt, Take, LE;
    var afterUri := LE(app.expiresEpoch, 8) + rest;
    var afterHash := LenBytes(app.uri) + afterUri;
    LenBack(app.domain, app.payloadHash + afterHash);
    TakeCat(app.payloadHash, afterHash);
    LenBack(app.uri, afterUri);
    IntBack(app.expiresEpoch, 8, rest);
  }

  lemma AttestBack(app: App<Bytes>, rest: Bytes)
    requires app.Attest? && AppInRange(app)
    ensures TakeAttest(app.proposalId + (LE(app.score, 4) + (LE(app.confidence, 4) + rest))) == Some((app, rest))
  {
    Widths();
    hide TakeInt, Take, LE;
    var afterScore := LE(app.confidence, 4) + rest;
    TakeCat(app.proposalId, LE(app.score, 4) + afterScore);
    IntBack(app.score, 4, afterScore);
    IntBack(app.confidence, 4, rest);
  }

  lemma AppBack(app: App<Bytes>, rest: Bytes)
    requires AppInRange(app)
    ensures TakeApp(AppBytes(app) + rest) == Some((app, rest))
  {
    Widths();
    hide LenBytes, TakeInt, TakePropose, TakeAttest, LE;
    match app
    case NoApp => IntBack(0, 4, rest);
    case Propose(domain, payloadHash, uri, expires) =>
      var body := LenBytes(domain) + (payloadHash + (LenBytes(uri) + (LE(expires, 8) + rest)));
      assert AppBytes(app) + rest == LE(1, 4) + body;
      IntBack(1, 4, body);
      ProposeBack(app, rest);
    case Attest(proposalId, score, confidence) =>
      var body := proposalId + (LE(score, 4) + (LE(confidence, 4) + rest));
      assert AppBytes(app) + rest == LE(2, 4) + body;
      IntBack(2, 4, body);
      AttestBack(app, rest);
  }

  lemma FieldsInOrder(tx: Raw, rest: Bytes)
    requires InRange(tx)
    ensures TxBytes(tx) + rest == LE(tx.version, 4) + (LE(|tx.inputs|, 8) + (InputsBytes(tx.inputs) + (LE(|tx.outputs|, 8) + (OutputsBytes(tx.outputs) + (LE(tx.locktime, 4) + (AppBytes(tx.app) + rest))))))
  {
    hide LE, InputsBytes, OutputsBytes, AppBytes;
  }

  // Decoding the bytes of a transaction, with anything after them, gives back the transaction and what follows it.
  lemma DecodeSerialized(tx: Raw, rest: Bytes)
    requires InRange(tx)
    ensures TakeTx(TxBytes(tx) + rest) == Some((tx, rest))
  {
    hide TxBytes, LE, InputsBytes, OutputsBytes, AppBytes, TakeInputs, TakeOutputs, TakeApp, TakeInt;
    Widths();
    var b6 := AppBytes(tx.app) + rest;
    var b5 := LE(tx.locktime, 4) + b6;
    var b4 := OutputsBytes(tx.outputs) + b5;
    var b3 := LE(|tx.outputs|, 8) + b4;
    var b2 := InputsBytes(tx.inputs) + b3;
    var b1 := LE(|tx.inputs|, 8) + b2;
    FieldsInOrder(tx, rest);
    IntBack(tx.version, 4, b1);
    IntBack(|tx.inputs|, 8, b2);
    InputsBack(tx.inputs, b3);
    IntBack(|tx.outputs|, 8, b4);
    OutputsBack(tx.outputs, b5);
    IntBack(tx.locktime, 4, b6);
    AppBack(tx.app, rest);
  }

  // Distinct transactions have distinct bytes, and no transaction's bytes begin another's.
  lemma SerializePrefixFree(a: Raw, b: Raw)
    requires InRange(a) && InRange(b) && TxBytes(a) <= TxBytes(b)
    ensures a == b
  {
    DecodeSerialized(a, TxBytes(b)[|TxBytes(a)|..]);
    assert TxBytes(a) + TxBytes(b)[|TxBytes(a)|..] == TxBytes(b) + [];
    DecodeSerialized(b, []);
  }

  const ZERO_HASH: Bytes := seq(32, _ => 0)

  // What a txid and a sighash hash agrees for two transactions exactly when they differ at most in the script
  // signatures of inputs that are not coinbases.
  lemma StrippedBytesEqual(a: Raw, b: Raw)
    requires InRange(a) && InRange(b)
    ensures TxBytes(Stripped(a, ZERO_HASH)) == TxBytes(Stripped(b, ZERO_HASH)) <==> SameButSignatures(a, b, ZERO_HASH)
  {
    StrippedInRange(a);
    StrippedInRange(b);
    StrippedEqual(a, b, ZERO_HASH);
    if TxBytes(Stripped(a, ZERO_HASH)) == TxBytes(Stripped(b, ZERO_HASH)) {
      SerializePrefixFree(Stripped(a, ZERO_HASH), Stripped(b, ZERO_HASH));
    }
  }

  lemma StrippedInRange(tx: Raw)
    requires InRange(tx)
    ensures InRange(Stripped(tx, ZERO_HASH))
  {
    var s := Stripped(tx, ZERO_HASH);
    forall i | i in s.inputs ensures InputInRange(i) {
      var k :| 0 <= k < |s.inputs| && s.inputs[k] == i;
      assert s.inputs[k] == StripInput(tx.inputs[k], ZERO_HASH) && tx.inputs[k] in tx.inputs;
    }
  }
}
