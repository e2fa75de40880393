// Block bodies an untrusted node serves: the merkle bind that fixes the transactions, and the author bind that fixes
// who made each.

module Blocks {
  import opened Base
  import opened Transactions

  // Double SHA-256 taken as a free constructor: a hash is the bytes it was computed from. A transaction is never
  // read as the concatenation of two hashes, and nothing hashes to zero.
  datatype Hash = Zero | TxHash(stripped: Tx<Hash>) | Pair(left: Hash, right: Hash)

  type Transaction = Tx<Hash>
  type Body = seq<Transaction>
  type Address = Bytes

  function Txid(tx: Transaction): Hash { TxHash(Stripped(tx, Zero)) }

  function Ids(body: Body): (ids: seq<Hash>)
    ensures |ids| == |body|
  {
    seq(|body|, i requires 0 <= i < |body| => Txid(body[i]))
  }

  // ---- The merkle root ----

  // One level up: neighbours paired, an odd last one paired with itself.
  function Layer(l: seq<Hash>): (up: seq<Hash>)
    ensures |up| == (|l| + 1) / 2
  {
    if l == [] then []
    else if |l| == 1 then [Pair(l[0], l[0])]
    else [Pair(l[0], l[1])] + Layer(l[2..])
  }

  function Root(l: seq<Hash>): Hash
    decreases |l|
  {
    if l == [] then Zero else if |l| == 1 then l[0] else Root(Layer(l))
  }

  lemma {:induction false} LayerAt(l: seq<Hash>, k: nat)
    requires k < (|l| + 1) / 2
    ensures Layer(l)[k] == Pair(l[2 * k], if 2 * k + 1 < |l| then l[2 * k + 1] else l[2 * k])
  {
    if k > 0 { LayerAt(l[2..], k - 1); }
  }

  lemma {:induction false} LayerSnoc(l: seq<Hash>, i: nat)
    requires i < |l| && i % 2 == 0
    ensures Layer(l[..Min(i + 2, |l|)]) == Layer(l[..i]) + [Pair(l[i], if i + 1 < |l| then l[i + 1] else l[i])]
    decreases i
  {
    var a, b := l[..Min(i + 2, |l|)], l[..i];
    if i > 0 {
      LayerSnoc(l[2..], i - 2);
      assert l[2..][..i - 2] == b[2..] && l[2..][..Min(i, |l| - 2)] == a[2..];
    }
  }

  method NextLayer(layer: seq<Hash>) returns (next: seq<Hash>)
    ensures next == Layer(layer)
  {
    next := [];
    var i := 0;
    assert layer[..0] == [];
    while i < |layer|
      invariant 0 <= i <= |layer| + 1 && i % 2 == 0
      invariant next == Layer(layer[..Min(i, |layer|)])
    {
      var left := layer[i];
      var right := if i + 1 < |layer| then layer[i + 1] else layer[i];
      LayerSnoc(layer, i);
      next := next + [Pair(left, right)];
      i := i + 2;
    }
    assert layer[..|layer|] == layer;
  }

  method MerkleRoot(ids: seq<Hash>) returns (root: Hash)
    ensures root == Root(ids)
  {
    if ids == [] { return Zero; }
    var layer := ids;
    while |layer| > 1
      invariant layer != [] && Root(layer) == Root(ids)
      decreases |layer|
    {
      layer := NextLayer(layer);
    }
    root := layer[0];
  }

  function Depth(h: Hash): nat { if h.Pair? then 1 + Depth(h.left) else 0 }

  ghost predicate Level(l: seq<Hash>, d: nat) { forall i :: 0 <= i < |l| ==> Depth(l[i]) == d }

  lemma LayerLevel(l: seq<Hash>, d: nat)
    requires Level(l, d)
    ensures Level(Layer(l), d + 1)
  {
    forall k | 0 <= k < |Layer(l)| ensures Depth(Layer(l)[k]) == d + 1 { LayerAt(l, k); }
  }

  lemma {:induction false} RootDepth(l: seq<Hash>, d: nat)
    requires l != [] && Level(l, d)
    ensures if |l| == 1 then Depth(Root(l)) == d else Depth(Root(l)) > d
    decreases |l|
  {
    if |l| > 1 {
      LayerLevel(l, d);
      RootDepth(Layer(l), d + 1);
    }
  }

  lemma LayerDistinct(l: seq<Hash>)
    requires Distinct(l)
    ensures Distinct(Layer(l))
  {
    forall i, j | 0 <= i < j < |Layer(l)| ensures Layer(l)[i] != Layer(l)[j] {
      LayerAt(l, i);
      LayerAt(l, j);
      assert l[2 * i] != l[2 * j];
    }
  }

  // A last pair of equal halves can only be the padding, so distinct leaves are read back from their pairs.
  lemma LayerFixes(l: seq<Hash>, m: seq<Hash>)
    requires Distinct(l) && Distinct(m) && Layer(l) == Layer(m)
    ensures l == m
  {
    if |l| > 0 {
      var k := |Layer(l)| - 1;
      LayerAt(l, k);
      LayerAt(m, k);
    }
    assert |l| == |m|;
    forall i | 0 <= i < |l| ensures l[i] == m[i] {
      LayerAt(l, i / 2);
      LayerAt(m, i / 2);
    }
  }

  // Two lists of distinct leaves with one root are the same list, their lengths included.
  lemma {:induction false} RootFixes(l: seq<Hash>, m: seq<Hash>, d: nat)
    requires l != [] && m != [] && Level(l, d) && Level(m, d) && Distinct(l) && Distinct(m)
    requires Root(l) == Root(m)
    ensures l == m
    decreases |l|
  {
    RootDepth(l, d);
    RootDepth(m, d);
    if |l| > 1 {
      LayerLevel(l, d);
      LayerLevel(m, d);
      LayerDistinct(l);
      LayerDistinct(m);
      RootFixes(Layer(l), Layer(m), d + 1);
      LayerFixes(l, m);
    }
  }

  // Without the check for repeated txids two bodies share a root: the odd last leaf may be written twice.
  lemma RepeatedLeafKeepsRoot(a: Hash, b: Hash, c: Hash)
    ensures Root([a, b, c]) == Root([a, b, c, c]) && [a, b, c] != [a, b, c, c]
  {
    assert [a, b, c][2..] == [c] && [a, b, c, c][2..] == [c, c];
    assert Layer([c]) == [Pair(c, c)];
    assert Layer([c, c]) == [Pair(c, c)] + Layer([]);
    assert Layer([a, b, c]) == [Pair(a, b), Pair(c, c)];
    assert Layer([a, b, c, c]) == [Pair(a, b), Pair(c, c)];
  }

  // ---- Binding a served body ----

  datatype Bind = Bound(ids: seq<Hash>, txs: Body) | DuplicateTxid | BodyMismatch

  predicate Binds(txs: Body, merkle: Hash) { Distinct(Ids(txs)) && Root(Ids(txs)) == merkle }

  method BindBlockTxs(txs: Body, merkle: Hash) returns (r: Bind)
    ensures r == if Binds(txs, merkle) then Bound(Ids(txs), txs) else if Distinct(Ids(txs)) then BodyMismatch else DuplicateTxid
  {
    var ids: seq<Hash> := [];
    for i := 0 to |txs|
      invariant ids == Ids(txs)[..i]
    {
      ids := ids + [Txid(txs[i])];
    }
    assert ids == Ids(txs);
    var seen: set<Hash> := {};
    for i := 0 to |ids|
      invariant seen == set k | k in ids[..i]
      invariant Distinct(ids[..i])
    {
      assert ids[..i + 1] == ids[..i] + [ids[i]];
      if ids[i] in seen {
        var j :| 0 <= j < i && ids[..i][j] == ids[i];
        assert ids[j] == ids[i];
        return DuplicateTxid;
      }
      seen := seen + {ids[i]};
    }
    assert ids[..|ids|] == ids;
    var root := MerkleRoot(ids);
    r := if root == merkle then Bound(ids, txs) else BodyMismatch;
  }

  // The same transactions in the same order, but for signatures.
  ghost predicate SameBody(a: Body, b: Body) {
    |a| == |b| && forall i :: 0 <= i < |a| ==> SameButSignatures(a[i], b[i], Zero)
  }

  // A served body that binds to the root of the mined one is the mined one, up to the signatures: nothing can be
  // left out, altered, added or reordered.
  lemma BoundIsMined(served: Body, mined: Body, merkle: Hash)
    requires Binds(served, merkle) && Binds(mined, merkle)
    ensures Ids(served) == Ids(mined) && SameBody(served, mined)
  {
    var s, m := Ids(served), Ids(mined);
    assert Level(s, 0) && Level(m, 0);
    if s == [] || m == [] {
      if s != [] { RootIsNotZero(s); }
      if m != [] { RootIsNotZero(m); }
    } else {
      RootFixes(s, m, 0);
    }
    forall i | 0 <= i < |served| ensures SameButSignatures(served[i], mined[i], Zero) {
      assert s[i] == m[i];
      StrippedEqual(served[i], mined[i], Zero);
    }
  }

  lemma {:induction false} RootIsNotZero(l: seq<Hash>)
    requires l != [] && Zero !in l
    ensures Root(l) != Zero
    decreases |l|
  {
    if |l| == 1 {
      assert l[0] in l;
    } else {
      forall k | 0 <= k < |Layer(l)| ensures Layer(l)[k] != Zero { LayerAt(l, k); }
      RootIsNotZero(Layer(l));
    }
  }

  // ---- Binding an author ----

  // The address whose valid signature of the stripped transaction this script is, if it is one.
  type Recover = (Bytes, Transaction) -> Option<Address>

  // The owner a script names: a 20-byte address.
  function OwnerOf(scriptPubkey: Bytes): Option<Address> { if |scriptPubkey| == 20 then Some(scriptPubkey) else None }

  // The owner of the coin a transaction hash and an index name. The hash commits the outputs.
  function CoinOwner(prevTxid: Hash, vout: nat): Option<Address> {
    if prevTxid.TxHash? && vout < |prevTxid.stripped.outputs| then OwnerOf(prevTxid.stripped.outputs[vout].scriptPubkey) else None
  }

  // prevoutScriptPubkey: the node's answer for the spent transaction, kept only when it hashes to the outpoint.
  function PrevoutOwner(prevTxid: Hash, vout: nat, answer: Option<Transaction>): (r: Option<Address>)
    ensures r.Some? ==> r == CoinOwner(prevTxid, vout)
    ensures answer.Some? && Txid(answer.value) == prevTxid ==> r == CoinOwner(prevTxid, vout)
  {
    if answer.None? || Txid(answer.value) != prevTxid || vout >= |answer.value.outputs| then None
    else OwnerOf(answer.value.outputs[vout].scriptPubkey)
  }

  datatype SignerBind = Signer(who: Address) | Unsigned | NoInput | NotOwner

  function RecoverSigner(tx: Transaction, recover: Recover): Option<Address> {
    if tx.inputs == [] then None else recover(tx.inputs[0].scriptSig, Stripped(tx, Zero))
  }

  function BindSigner(tx: Transaction, answer: Option<Transaction>, recover: Recover): SignerBind {
    var signer := RecoverSigner(tx, recover);
    if signer.None? then Unsigned
    else if IsCoinbase(tx.inputs[0], Zero) then NoInput
    else
      var owner := PrevoutOwner(tx.inputs[0].prevTxid, tx.inputs[0].vout, answer);
      if owner.Some? && RecoverSigner(tx, recover) == owner then Signer(owner.value) else NotOwner
  }

  // Who made the transaction a hash names: the owner of the coin its first input spends.
  function AuthorOf(id: Hash): Option<Address> {
    if id.TxHash? && id.stripped.inputs != [] then CoinOwner(id.stripped.inputs[0].prevTxid, id.stripped.inputs[0].vout) else None
  }

  // Whatever scriptSig a body carries and whatever the node answers for the spent coin, an author bind names the
  // true author or refuses.
  lemma BoundAuthorIsTheAuthor(tx: Transaction, answer: Option<Transaction>, recover: Recover)
    ensures BindSigner(tx, answer, recover).Signer? ==> Some(BindSigner(tx, answer, recover).who) == AuthorOf(Txid(tx))
  {
    if tx.inputs != [] {
      assert Stripped(tx, Zero).inputs[0] == StripInput(tx.inputs[0], Zero);
    }
  }

  // The author is whoever the 20-byte script of the coin the first input spends names.
  lemma AuthorSpends(tx: Transaction, prev: Transaction, who: Address)
    requires tx.inputs != [] && tx.inputs[0].prevTxid == Txid(prev)
    ensures AuthorOf(Txid(tx)) == Some(who) <==>
      |who| == 20 && tx.inputs[0].vout < |prev.outputs| && prev.outputs[tx.inputs[0].vout].scriptPubkey == who
  {
    assert Stripped(tx, Zero).inputs[0] == StripInput(tx.inputs[0], Zero);
    assert Stripped(prev, Zero).outputs == prev.outputs;
  }

  // And the bind succeeds exactly when the node answers with the spent transaction and the first script is the author's
  // signature; a script that is nobody's is unsigned, and a signed coinbase has no coin to be bound to.
  lemma BindsIff(tx: Transaction, answer: Option<Transaction>, recover: Recover)
    ensures var bound, coin := BindSigner(tx, answer, recover), if tx.inputs == [] then Zero else tx.inputs[0].prevTxid;
      && (bound == Unsigned <==> tx.inputs == [] || recover(tx.inputs[0].scriptSig, Stripped(tx, Zero)).None?)
      && (bound == NoInput <==> bound != Unsigned && coin == Zero && tx.inputs[0].vout == 0xFFFF_FFFF)
      && (bound.Signer? <==> bound != Unsigned && bound != NoInput && answer.Some? && Txid(answer.value) == coin
                             && AuthorOf(Txid(tx)) == recover(tx.inputs[0].scriptSig, Stripped(tx, Zero)))
  {
    if tx.inputs != [] {
      assert Stripped(tx, Zero).inputs[0] == StripInput(tx.inputs[0], Zero);
    }
  }
}
