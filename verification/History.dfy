// Per-account history: recording a signed transaction over a store that may fail, the rows parked meanwhile, the flags
// that settle, and the reading of the chain behind "confirmed", "gone" and "stuck".

module History {
  import opened Base

  const HISTORY_CAP: nat := 200
  const INCLUSION_NOTICE_BLOCKS: int := 10

  type Key = string    // histKey(address)

  // One row. `merge`: its type is "consolidate".
  datatype Row = Row(txid: string, merge: bool, maybe: bool, confirmed: bool, stuck: bool, gone: bool, goneTip: Option<int>,
                     subTip: int, chkTip: int, inputs: seq<string>, amount: int, fee: int)

  // ---- The verdict of one chain reading ----

  datatype Status = Mined | InMempool | NotFound(definite: bool)

  datatype Verdict = Included | Spent | Open | NoReading

  // `mined`: the outpoints of the mined coin set, or None when it was not read.
  function InclusionVerdict(st: Option<Status>, inputs: seq<string>, mined: Option<set<string>>): Verdict {
    if st == Some(Mined) then Included
    else if st.None? then NoReading
    else if st.value.InMempool? then Open
    else if !st.value.definite || mined.None? then NoReading
    else if exists op :: op in inputs && op !in mined.value then Spent else Open
  }

  datatype GoneMark = GoneMark(tip: Option<int>, gone: bool)

  // goneStep: one fresh reading at a tip.
  function GoneStep(m: GoneMark, v: Verdict, tip: int): GoneMark {
    match v
    case NoReading => m
    case Included => GoneMark(None, false)
    case Open => GoneMark(None, false)
    case Spent =>
      if m.tip.None? || m.tip.value <= 0 then m.(tip := Some(tip))
      else if tip > m.tip.value && !m.gone then m.(gone := true)
      else m
  }

  datatype Reading = Reading(verdict: Verdict, tip: int)

  function GoneAfter(rs: seq<Reading>): GoneMark {
    if rs == [] then GoneMark(None, false) else GoneStep(GoneAfter(rs[..|rs| - 1]), rs[|rs| - 1].verdict, rs[|rs| - 1].tip)
  }

  // The first "spent" since the last reading that said otherwise.
  function FirstSpent(rs: seq<Reading>): (i: Option<nat>)
    ensures i.Some? ==> i.value < |rs| && rs[i.value].verdict.Spent?
    ensures i.Some? ==> forall k :: i.value <= k < |rs| ==> rs[k].verdict.Spent? || rs[k].verdict.NoReading?
  {
    if rs == [] then None
    else
      match rs[|rs| - 1].verdict
      case Spent => if FirstSpent(rs[..|rs| - 1]).Some? then FirstSpent(rs[..|rs| - 1]) else Some(|rs| - 1)
      case NoReading => FirstSpent(rs[..|rs| - 1])
      case _ => None
  }

  ghost predicate SpentAbove(rs: seq<Reading>, i: nat)
    requires i < |rs|
  {
    exists j :: i < j < |rs| && rs[j].verdict.Spent? && rs[j].tip > rs[i].tip
  }

  // A row is gone exactly when, since the last reading that said otherwise, a later "spent" came at a tip above the
  // first one's: two "spent" readings at increasing tips, none open or included from the first on.
  lemma {:induction false} GoneIff(rs: seq<Reading>)
    requires forall k :: 0 <= k < |rs| ==> rs[k].tip > 0
    ensures GoneAfter(rs).tip == if FirstSpent(rs).Some? then Some(rs[FirstSpent(rs).value].tip) else None
    ensures GoneAfter(rs).gone <==> FirstSpent(rs).Some? && SpentAbove(rs, FirstSpent(rs).value)
  {
    if rs != [] {
      var init, last := rs[..|rs| - 1], rs[|rs| - 1];
      GoneIff(init);
      if FirstSpent(init).Some? && !last.verdict.Open? && !last.verdict.Included? {
        var i := FirstSpent(init).value;
        if SpentAbove(init, i) {
          var j :| i < j < |init| && init[j].verdict.Spent? && init[j].tip > init[i].tip;
          assert rs[j] == init[j];
        }
        if SpentAbove(rs, i) {
          var j :| i < j < |rs| && rs[j].verdict.Spent? && rs[j].tip > rs[i].tip;
          if j < |init| { assert init[j] == rs[j]; }
        }
        if last.verdict.Spent? && last.tip > rs[i].tip { assert SpentAbove(rs, i); }
      }
    }
  }

  // What one reading says: mined is included, in the mempool open, definitely absent spent or open by whether an input has
  // left the mined coins; anything less is no reading.
  lemma InclusionIs(st: Option<Status>, inputs: seq<string>, mined: Option<set<string>>)
    ensures var v, absent := InclusionVerdict(st, inputs, mined), st == Some(NotFound(true)) && mined.Some?;
      && (v == Included <==> st == Some(Mined))
      && (v == Spent <==> absent && !(forall op :: op in inputs ==> op in mined.value))
      && (v == Open <==> st == Some(InMempool) || (absent && forall op :: op in inputs ==> op in mined.value))
  {
  }

  // ---- Settling a list from one pass of readings ----

  datatype Coins = Coins(ops: set<string>, txids: set<string>)

  // What a pass read: the tip, the status of some rows, the mined coins, and the txids of the coin set it was handed.
  datatype Reads = Reads(tip: Option<int>, states: map<string, Status>, mined: Option<Coins>, present: set<string>)

  predicate IsMergeCandidate(e: Row) { e.merge && !e.confirmed && !e.gone }

  predicate IsOpenRow(e: Row) { e.maybe || IsMergeCandidate(e) || e.gone || e.goneTip.Some? }

  function VerdictFor(e: Row, r: Reads): Verdict {
    var id := LowerCase(e.txid);
    if id in r.present || (r.mined.Some? && id in r.mined.value.txids) then Included
    else InclusionVerdict(if id in r.states then Some(r.states[id]) else None, e.inputs, if r.mined.Some? then Some(r.mined.value.ops) else None)
  }

  function Settle(e: Row, r: Reads): Row {
    if !IsOpenRow(e) then e
    else
      var v := VerdictFor(e, r);
      if v.Included? then e.(maybe := false, stuck := false, gone := false, goneTip := None, confirmed := e.confirmed || e.merge)
      else if r.tip.None? then e
      else
        var tip := r.tip.value;
        var m := GoneStep(GoneMark(e.goneTip, e.gone), v, tip);
        var subTip := if e.subTip > 0 then e.subTip else tip;
        e.(goneTip := m.tip, gone := m.gone, subTip := subTip,
           chkTip := if LowerCase(e.txid) in r.states then tip else e.chkTip,
           stuck := e.stuck || tip - subTip >= INCLUSION_NOTICE_BLOCKS)
  }

  // A row is included when its transaction shows in the coins or is read as mined; and then it is definite, neither stuck
  // nor gone, and confirmed if it is a merge.
  lemma SettleIncludes(e: Row, r: Reads)
    requires IsOpenRow(e)
    ensures var id := LowerCase(e.txid);
      VerdictFor(e, r) == Included <==>
        id in r.present || (r.mined.Some? && id in r.mined.value.txids) || (id in r.states && r.states[id] == Mined)
    ensures VerdictFor(e, r) == Included ==>
      Settle(e, r) == e.(maybe := false, stuck := false, gone := false, goneTip := None, confirmed := e.confirmed || e.merge)
  {
  }

  // A row that is not stays as it is without a tip or when nothing is open about it; else it keeps its identity, is stuck
  // from ten blocks after it was first seen, and is gone at a second "spent" above the first.
  lemma SettleWaits(e: Row, r: Reads)
    requires VerdictFor(e, r) != Included
    ensures !(e.maybe || (e.merge && !e.confirmed && !e.gone) || e.gone || e.goneTip.Some?) || r.tip.None? ==> Settle(e, r) == e
    ensures (e.maybe || (e.merge && !e.confirmed && !e.gone) || e.gone || e.goneTip.Some?) && r.tip.Some? ==>
      var t, tip, v := Settle(e, r), r.tip.value, VerdictFor(e, r);
      && t.txid == e.txid && t.maybe == e.maybe && t.confirmed == e.confirmed && t.merge == e.merge
      && t.subTip == (if e.subTip > 0 then e.subTip else tip)
      && (t.stuck <==> e.stuck || tip - t.subTip >= 10)
      && (v == Spent && (e.goneTip.None? || e.goneTip.value <= 0) ==> t.goneTip == Some(tip) && t.gone == e.gone)
      && (v == Spent && e.goneTip.Some? && e.goneTip.value > 0 ==> t.goneTip == e.goneTip && (t.gone <==> e.gone || tip > e.goneTip.value))
      && (v == Open ==> t.goneTip.None? && !t.gone)
      && (v == NoReading ==> t.goneTip == e.goneTip && t.gone == e.gone)
      && t.chkTip == if LowerCase(e.txid) in r.states then tip else e.chkTip
  {
  }

  function SettleAll(h: seq<Row>, r: Reads): seq<Row> { seq(|h|, i requires 0 <= i < |h| => Settle(h[i], r)) }

  // What a merge still to come brings: its output, the inputs less the fee.
  function Pending(h: seq<Row>): int {
    if h == [] then 0
    else Pending(h[..|h| - 1]) + if IsMergeCandidate(h[|h| - 1]) then Max(0, h[|h| - 1].amount - h[|h| - 1].fee) else 0
  }

  // Each row that is a merge, neither confirmed nor gone, adds what it brings, and no other row anything.
  lemma PendingIs(h: seq<Row>, e: Row)
    ensures Pending([]) == 0
    ensures Pending(h + [e]) == Pending(h) + if e.merge && !e.confirmed && !e.gone && e.amount > e.fee then e.amount - e.fee else 0
  {
    assert (h + [e])[..|h|] == h;
  }

  // The chained step of pendingMerge, on the list read afresh.
  method SettleList(h: seq<Row>, r: Reads) returns (out: seq<Row>, pending: bool, amount: int, maybe: bool, stuck: bool)
    ensures out == SettleAll(h, r) && amount == Pending(out)
    ensures pending <==> exists e :: e in out && IsMergeCandidate(e)
    ensures maybe <==> exists e :: e in out && IsMergeCandidate(e) && e.maybe
    ensures stuck <==> exists e :: e in out && IsMergeCandidate(e) && e.stuck
  {
    hide Settle, IsMergeCandidate, Pending;
    out := [];
    for i := 0 to |h|
      invariant out == SettleAll(h, r)[..i]
    {
      out := out + [Settle(h[i], r)];
    }
    pending, amount, maybe, stuck := Totals(out);
  }

  method Totals(h: seq<Row>) returns (pending: bool, amount: int, maybe: bool, stuck: bool)
    ensures amount == Pending(h)
    ensures pending <==> exists e :: e in h && IsMergeCandidate(e)
    ensures maybe <==> exists e :: e in h && IsMergeCandidate(e) && e.maybe
    ensures stuck <==> exists e :: e in h && IsMergeCandidate(e) && e.stuck
  {
    hide IsMergeCandidate;
    amount, pending, maybe, stuck := 0, false, false, false;
    for i := 0 to |h|
      invariant amount == Pending(h[..i])
      invariant pending <==> exists e :: e in h[..i] && IsMergeCandidate(e)
      invariant maybe <==> exists e :: e in h[..i] && IsMergeCandidate(e) && e.maybe
      invariant stuck <==> exists e :: e in h[..i] && IsMergeCandidate(e) && e.stuck
    {
      assert h[..i + 1] == h[..i] + [h[i]] && h[..i + 1][..i] == h[..i];
      assert h[i] in h[..i + 1];
      if IsMergeCandidate(h[i]) {
        pending, amount := true, amount + Max(0, h[i].amount - h[i].fee);
        maybe, stuck := maybe || h[i].maybe, stuck || h[i].stuck;
      }
    }
    assert h[..|h|] == h;
  }

  // ---- What a change to a list may do ----

  // The same transaction later: what was confirmed stays confirmed, what was definite stays definite.
  predicate Later(a: Row, b: Row) {
    a.txid == b.txid && a.merge == b.merge && a.amount == b.amount && a.fee == b.fee && (a.confirmed ==> b.confirmed) && (b.maybe ==> a.maybe)
  }

  // The same rows in the same order, each later.
  ghost predicate Rewrites(h: seq<Row>, t: seq<Row>) { |t| == |h| && forall i :: 0 <= i < |h| ==> Later(h[i], t[i]) }

  predicate HasTx(h: seq<Row>, txid: string) { exists i :: 0 <= i < |h| && h[i].txid == txid }

  ghost predicate Unique(h: seq<Row>) { forall i, j :: 0 <= i < j < |h| ==> h[i].txid != h[j].txid }

  ghost predicate Capped(h: seq<Row>) { Unique(h) && |h| <= HISTORY_CAP }

  datatype Change = ClearMaybe(txid: string) | Latch(spent: set<string>) | Inclusion(read: Reads)

  // clearMaybe: the first row with this txid that is still a maybe.
  function Cleared(h: seq<Row>, txid: string): seq<Row> {
    if h == [] then []
    else if h[0].txid == txid && h[0].maybe then [h[0].(maybe := false)] + h[1..]
    else [h[0]] + Cleared(h[1..], txid)
  }

  function LatchRow(e: Row, spent: set<string>): Row {
    if e.merge && !e.confirmed && LowerCase(e.txid) in spent then e.(confirmed := true, maybe := false) else e
  }

  function Changed(h: seq<Row>, c: Change): seq<Row> {
    match c
    case ClearMaybe(txid) => Cleared(h, txid)
    case Latch(spent) => seq(|h|, i requires 0 <= i < |h| => LatchRow(h[i], spent))
    case Inclusion(read) => SettleAll(h, read)
  }

  lemma {:induction false} ClearedRewrites(h: seq<Row>, txid: string)
    ensures Rewrites(h, Cleared(h, txid))
  {
    if h != [] {
      assert h == [h[0]] + h[1..];
      if !(h[0].txid == txid && h[0].maybe) {
        ClearedRewrites(h[1..], txid);
        assert forall i :: 0 < i < |h| ==> h[i] == h[1..][i - 1] && Cleared(h, txid)[i] == Cleared(h[1..], txid)[i - 1];
      }
    }
  }

  // Every change but a record keeps every row, in its place, and clears no `confirmed` and sets no `maybe`.
  lemma {:induction false} ChangeRewrites(h: seq<Row>, c: Change)
    ensures Rewrites(h, Changed(h, c))
  {
    if c.ClearMaybe? { ClearedRewrites(h, c.txid); }
  }

  predicate IsMaybe(e: Row, txid: string) { e.txid == txid && e.maybe }

  predicate NoMaybe(h: seq<Row>, txid: string) { forall i :: 0 <= i < |h| ==> !IsMaybe(h[i], txid) }

  // Clearing a maybe changes one row alone: the first with this txid that is still a maybe.
  lemma {:induction false} ClearedIs(h: seq<Row>, txid: string, i: nat)
    requires i < |h|
    ensures |Cleared(h, txid)| == |h|
    ensures Cleared(h, txid)[i] == if IsMaybe(h[i], txid) && NoMaybe(h[..i], txid) then h[i].(maybe := false) else h[i]
  {
    ClearedRewrites(h, txid);
    if i > 0 {
      assert h[..i] == [h[0]] + h[1..][..i - 1] && h[1..][i - 1] == h[i];
      NoMaybeCons(h[0], h[1..][..i - 1], txid);
      ClearedIs(h[1..], txid, i - 1);
      if !IsMaybe(h[0], txid) { assert Cleared(h, txid)[i] == Cleared(h[1..], txid)[i - 1]; }
    } else {
      assert h[..0] == [];
    }
  }

  lemma NoMaybeCons(x: Row, h: seq<Row>, txid: string)
    ensures NoMaybe([x] + h, txid) <==> !IsMaybe(x, txid) && NoMaybe(h, txid)
  {
    assert ([x] + h)[0] == x && forall i :: 0 <= i < |h| ==> ([x] + h)[i + 1] == h[i];
    if !IsMaybe(x, txid) && NoMaybe(h, txid) {
      forall i | 0 <= i <= |h| ensures !IsMaybe(([x] + h)[i], txid) { if i > 0 { assert ([x] + h)[i] == h[i - 1]; } }
    }
    if NoMaybe([x] + h, txid) {
      forall i | 0 <= i < |h| ensures !IsMaybe(h[i], txid) { assert ([x] + h)[i + 1] == h[i]; }
    }
  }

  // Latching confirms exactly the merges whose transaction was spent from.
  lemma LatchIs(e: Row, spent: set<string>)
    ensures LatchRow(e, spent) == if e.merge && LowerCase(e.txid) in spent && !e.confirmed then e.(confirmed := true, maybe := false) else e
    ensures (LatchRow(e, spent).confirmed <==> e.confirmed || (e.merge && LowerCase(e.txid) in spent)) && LatchRow(e, spent).txid == e.txid
  {
  }

  lemma RewritesKeep(h: seq<Row>, t: seq<Row>, txid: string)
    requires Rewrites(h, t)
    ensures HasTx(h, txid) <==> HasTx(t, txid)
    ensures Capped(h) ==> Capped(t)
  {
    assert forall i :: 0 <= i < |h| ==> h[i].txid == t[i].txid;
    if HasTx(h, txid) { var i :| 0 <= i < |h| && h[i].txid == txid; assert t[i].txid == txid; }
  }

  // ---- Recording a row ----

  // doRecordTx on the list it read; None where it writes nothing.
  function Recorded(h: seq<Row>, e: Row): Option<seq<Row>> {
    if HasTx(h, e.txid) then
      if HasMaybe(h, e.txid) && !e.maybe then Some(Settled(h, e.txid)) else None
    else Some(([e] + h)[..Min(|h| + 1, HISTORY_CAP)])
  }

  // h.find by txid is a maybe.
  predicate HasMaybe(h: seq<Row>, txid: string) {
    h != [] && if h[0].txid == txid then h[0].maybe else HasMaybe(h[1..], txid)
  }

  function Settled(h: seq<Row>, txid: string): seq<Row> {
    if h == [] then []
    else if h[0].txid == txid then [h[0].(maybe := false)] + h[1..]
    else [h[0]] + Settled(h[1..], txid)
  }

  lemma {:induction false} SettledRewrites(h: seq<Row>, txid: string)
    ensures Rewrites(h, Settled(h, txid))
  {
    if h != [] && h[0].txid != txid {
      SettledRewrites(h[1..], txid);
      assert forall i :: 0 < i < |h| ==> h[i] == h[1..][i - 1] && Settled(h, txid)[i] == Settled(h[1..], txid)[i - 1];
    }
  }

  // The oldest row of a full list that has no row for the new transaction.
  predicate Displaced(h: seq<Row>, e: Row, txid: string) {
    !HasTx(h, e.txid) && |h| >= HISTORY_CAP && txid != e.txid && !HasTx(h[..HISTORY_CAP - 1], txid)
  }

  // A record keeps the cap, the txids distinct and every earlier row but a displaced one; the recorded one is in.
  lemma {:induction false} RecordKeeps(h: seq<Row>, e: Row, txid: string)
    requires Capped(h)
    ensures Recorded(h, e).None? ==> HasTx(h, e.txid)
    ensures Recorded(h, e).Some? ==> Capped(Recorded(h, e).value) && HasTx(Recorded(h, e).value, e.txid)
    ensures Recorded(h, e).Some? && HasTx(h, txid) && !Displaced(h, e, txid) ==> HasTx(Recorded(h, e).value, txid)
  {
    var r := Recorded(h, e);
    if HasTx(h, e.txid) {
      SettledRewrites(h, e.txid);
      RewritesKeep(h, Settled(h, e.txid), e.txid);
      RewritesKeep(h, Settled(h, e.txid), txid);
    } else {
      var t := r.value;
      assert t[0] == e;
      assert forall i :: 0 < i < |t| ==> t[i] == h[i - 1];
      if HasTx(h, txid) && !Displaced(h, e, txid) {
        var i :| 0 <= i < |h| && h[i].txid == txid && (|h| >= HISTORY_CAP ==> i < HISTORY_CAP - 1) by { KeptPlace(h, e, txid); }
        assert t[i + 1].txid == txid;
      }
    }
  }

  // A new transaction goes on top of the newest 199; a definite record of one settles its first row, when that is a maybe.
  lemma {:induction false} RecordedIs(h: seq<Row>, e: Row)
    ensures !HasTx(h, e.txid) ==> Recorded(h, e) == Some([e] + h[..Min(|h|, 199)])
    ensures forall i :: 0 <= i < |h| && h[i].txid == e.txid && !HasTx(h[..i], e.txid) ==>
      Recorded(h, e) == if h[i].maybe && !e.maybe then Some(h[i := h[i].(maybe := false)]) else None
  {
    if !HasTx(h, e.txid) { assert ([e] + h)[..Min(|h| + 1, HISTORY_CAP)] == [e] + h[..Min(|h|, 199)]; }
    forall i | 0 <= i < |h| && h[i].txid == e.txid && !HasTx(h[..i], e.txid)
      ensures Recorded(h, e) == if h[i].maybe && !e.maybe then Some(h[i := h[i].(maybe := false)]) else None {
      FirstRow(h, e.txid, i);
    }
  }

  lemma HasTxCons(x: Row, h: seq<Row>, txid: string)
    ensures HasTx([x] + h, txid) <==> x.txid == txid || HasTx(h, txid)
  {
    if HasTx(h, txid) { var i :| 0 <= i < |h| && h[i].txid == txid; assert ([x] + h)[i + 1] == h[i]; }
    assert ([x] + h)[0] == x;
    if HasTx([x] + h, txid) { var i :| 0 <= i <= |h| && ([x] + h)[i].txid == txid; if i > 0 { assert h[i - 1] == ([x] + h)[i]; } }
  }

  lemma {:induction false} FirstRow(h: seq<Row>, txid: string, i: nat)
    requires i < |h| && h[i].txid == txid && !HasTx(h[..i], txid)
    ensures HasMaybe(h, txid) == h[i].maybe && Settled(h, txid) == h[i := h[i].(maybe := false)]
  {
    if i > 0 {
      assert h[..i][0] == h[0];
      assert h[0].txid != txid;
      assert h[..i] == [h[0]] + h[1..][..i - 1];
      HasTxCons(h[0], h[1..][..i - 1], txid);
      FirstRow(h[1..], txid, i - 1);
      assert h[i := h[i].(maybe := false)] == [h[0]] + h[1..][i - 1 := h[i].(maybe := false)];
    } else {
      assert h[0 := h[0].(maybe := false)] == [h[0].(maybe := false)] + h[1..];
    }
  }

  lemma KeptPlace(h: seq<Row>, e: Row, txid: string)
    requires Capped(h) && HasTx(h, txid) && !Displaced(h, e, txid) && !HasTx(h, e.txid)
    ensures exists i :: 0 <= i < |h| && h[i].txid == txid && (|h| >= HISTORY_CAP ==> i < HISTORY_CAP - 1)
  {
    if |h| >= HISTORY_CAP {
      assert txid != e.txid;
      var i :| 0 <= i < HISTORY_CAP - 1 && h[..HISTORY_CAP - 1][i].txid == txid;
      assert h[i].txid == txid;
    }
  }

  // ---- The write chain ----

  datatype Parked = Parked(k: Key, row: Row)

  // Where the running callback waits; Idle between callbacks.
  datatype Job =
    | Idle
    | RecordReading(k: Key, row: Row)
    | RecordWriting(k: Key, row: Row, list: seq<Row>)
    | DrainReading(p: Parked, rest: seq<Parked>)                     // one parked row at a time
    | DrainWriting(p: Parked, list: seq<Row>, rest: seq<Parked>)
    | ChangeReading(k: Key, change: Change)
    | ChangeWriting(k: Key, list: seq<Row>)
    | Deleting(k: Key)

  datatype State = State(stored: map<Key, seq<Row>>, pending: seq<Parked>, unlocked: bool, wiped: bool, job: Job)

  datatype Event =
    | Record(k: Key, row: Row)              // recordTx's callback starts
    | Drain                                 // drainPendingHist starts
    | UnmarkParked(k: Key, txid: string)    // clearMaybe's parked twin, outside the chain
    | Alter(k: Key, change: Change)         // clearMaybe, latchSpentMerges or pendingMerge's chained step starts
    | Remove(k: Key)
    | Reset(deleted: set<Key>)
    | ReadAnswer(ok: bool)
    | WriteAnswer(ok: bool)
    | Lock | Unlock | Wipe | NewVault

  function ListOf(stored: map<Key, seq<Row>>, k: Key): seq<Row> { if k in stored then stored[k] else [] }

  function DrainNext(rest: seq<Parked>): Job { if rest == [] then Idle else DrainReading(rest[0], rest[1..]) }

  // A definite record takes over from its parked maybe.
  function WithoutTwin(pending: seq<Parked>, k: Key, e: Row): seq<Parked> {
    if pending == [] then []
    else
      var before, p := WithoutTwin(pending[..|pending| - 1], k, e), pending[|pending| - 1];
      if p.k == k && p.row.txid == e.txid && p.row.maybe && !e.maybe then before else before + [p]
  }

  function Without(pending: seq<Parked>, k: Key): seq<Parked> {
    if pending == [] then []
    else
      var before, p := Without(pending[..|pending| - 1], k), pending[|pending| - 1];
      if p.k == k then before else before + [p]
  }

  function Unmarked(pending: seq<Parked>, k: Key, txid: string): seq<Parked> {
    seq(|pending|, i requires 0 <= i < |pending| =>
      if pending[i].k == k && pending[i].row.txid == txid then pending[i].(row := pending[i].row.(maybe := false)) else pending[i])
  }

  function OnRead(s: State): State {
    match s.job
    case RecordReading(k, row) => (
      match Recorded(ListOf(s.stored, k), row)
      case None => s.(job := Idle)
      case Some(list) => s.(job := RecordWriting(k, row, list)))
    case DrainReading(p, rest) => (
      match Recorded(ListOf(s.stored, p.k), p.row)
      case None => s.(job := DrainNext(rest))
      case Some(list) => s.(job := DrainWriting(p, list, rest)))
    case ChangeReading(k, change) =>
      var list := ListOf(s.stored, k);
      s.(job := if Changed(list, change) == list then Idle else ChangeWriting(k, Changed(list, change)))
    case _ => s
  }

  // A failed read or write parks the row again; a change is dropped.
  function OnFailure(s: State): State {
    match s.job
    case RecordReading(k, row) => s.(pending := s.pending + [Parked(k, row)], job := Idle)
    case RecordWriting(k, row, _) => s.(pending := s.pending + [Parked(k, row)], job := Idle)
    case DrainReading(p, rest) => s.(pending := s.pending + [p], job := DrainNext(rest))
    case DrainWriting(p, _, rest) => s.(pending := s.pending + [p], job := DrainNext(rest))
    case _ => s.(job := Idle)
  }

  function OnWrite(s: State): State {
    match s.job
    case RecordWriting(k, _, list) => s.(stored := s.stored[k := list], job := Idle)
    case DrainWriting(p, list, rest) => s.(stored := s.stored[p.k := list], job := DrainNext(rest))
    case ChangeWriting(k, list) => s.(stored := s.stored[k := list], job := Idle)
    case Deleting(k) => s.(stored := s.stored - {k}, job := Idle)
    case _ => s
  }

  predicate IsReading(j: Job) { j.RecordReading? || j.DrainReading? || j.ChangeReading? }

  predicate IsWriting(j: Job) { j.RecordWriting? || j.DrainWriting? || j.ChangeWriting? || j.Deleting? }

  // An event that does not fit where the chain waits changes nothing.
  function Step(s: State, e: Event): State {
    match e
    case Record(k, row) =>
      if !s.job.Idle? then s
      else if !s.unlocked then (if s.wiped then s else s.(pending := s.pending + [Parked(k, row)]))
      else s.(pending := WithoutTwin(s.pending, k, row), job := RecordReading(k, row))
    case Drain => if !s.job.Idle? || !s.unlocked then s else s.(pending := [], job := DrainNext(s.pending))
    case UnmarkParked(k, txid) => s.(pending := Unmarked(s.pending, k, txid))
    case Alter(k, change) => if !s.job.Idle? || !s.unlocked then s else s.(job := ChangeReading(k, change))
    case Remove(k) => if !s.job.Idle? then s else s.(pending := Without(s.pending, k), job := Deleting(k))
    case Reset(deleted) => if !s.job.Idle? then s else s.(pending := [], stored := s.stored - deleted)
    case ReadAnswer(ok) => if !IsReading(s.job) then s else if ok then OnRead(s) else OnFailure(s)
    case WriteAnswer(ok) => if !IsWriting(s.job) then s else if ok then OnWrite(s) else OnFailure(s)
    case Lock => s.(unlocked := false)
    case Unlock => s.(unlocked := true)
    case Wipe => s.(wiped := true, unlocked := false)
    case NewVault => s.(wiped := false, unlocked := true)
  }

  function Run(s: State, es: seq<Event>): State { if es == [] then s else Step(Run(s, es[..|es| - 1]), es[|es| - 1]) }

  // ---- The lists stay well formed, and flags only settle ----

  // What the running callback is about to write is the list it read, recorded or changed.
  ghost predicate JobFits(s: State) {
    match s.job
    case RecordWriting(k, row, list) => Recorded(ListOf(s.stored, k), row) == Some(list)
    case DrainWriting(p, list, _) => Recorded(ListOf(s.stored, p.k), p.row) == Some(list)
    case ChangeWriting(k, list) => exists c :: list == Changed(ListOf(s.stored, k), c)
    case _ => true
  }

  ghost predicate Valid(s: State) { JobFits(s) && forall k :: k in s.stored ==> Capped(s.stored[k]) }

  lemma {:induction false} RecordedCaps(h: seq<Row>, e: Row)
    requires Capped(h) && Recorded(h, e).Some?
    ensures Capped(Recorded(h, e).value)
  {
    RecordKeeps(h, e, "");
  }

  lemma {:induction false} ChangedCaps(h: seq<Row>, t: seq<Row>)
    requires Capped(h) && exists c :: t == Changed(h, c)
    ensures Capped(t)
  {
    var c :| t == Changed(h, c);
    ChangeRewrites(h, c);
    RewritesKeep(h, t, "");
  }

  lemma {:induction false} WriteValid(s: State)
    requires Valid(s)
    ensures Valid(OnWrite(s))
  {
    hide Recorded, Changed;
    assert Capped([]);
    match s.job
    case RecordWriting(k, row, list) => RecordedCaps(ListOf(s.stored, k), row);
    case DrainWriting(p, list, rest) => RecordedCaps(ListOf(s.stored, p.k), p.row);
    case ChangeWriting(k, list) => ChangedCaps(ListOf(s.stored, k), list);
    case _ =>
  }

  lemma {:induction false} StepValid(s: State, e: Event)
    requires Valid(s)
    ensures Valid(Step(s, e))
  {
    hide Recorded, Changed, WithoutTwin, Without, Unmarked, Capped;
    if e.WriteAnswer? && e.ok && IsWriting(s.job) { WriteValid(s); }
    if e.ReadAnswer? && e.ok && s.job.ChangeReading? {
      assert Step(s, e).job.ChangeWriting? ==> Step(s, e).job.list == Changed(ListOf(s.stored, s.job.k), s.job.change);
    }
  }

  // Every stored list keeps distinct txids and at most 200 rows over every run.
  lemma {:induction false} RunValid(s: State, es: seq<Event>)
    requires Valid(s)
    ensures Valid(Run(s, es))
  {
    if es != [] {
      RunValid(s, es[..|es| - 1]);
      StepValid(Run(s, es[..|es| - 1]), es[|es| - 1]);
    }
  }

  ghost predicate OnlySettles(h: seq<Row>, t: seq<Row>) {
    forall i, j :: 0 <= i < |h| && 0 <= j < |t| && h[i].txid == t[j].txid ==> Later(h[i], t[j])
  }

  lemma {:induction false} RewritesSettle(h: seq<Row>, t: seq<Row>)
    requires Rewrites(h, t) && Unique(h)
    ensures OnlySettles(h, t)
  {
    forall i, j | 0 <= i < |h| && 0 <= j < |t| && h[i].txid == t[j].txid ensures Later(h[i], t[j]) {
      assert Later(h[j], t[j]);
      assert i == j by { assert h[i].txid == h[j].txid; }
    }
  }

  lemma {:induction false} RecordSettles(h: seq<Row>, e: Row)
    requires Unique(h) && Recorded(h, e).Some?
    ensures OnlySettles(h, Recorded(h, e).value)
  {
    if HasTx(h, e.txid) {
      SettledRewrites(h, e.txid);
      RewritesSettle(h, Settled(h, e.txid));
    } else {
      var t := Recorded(h, e).value;
      assert t[0] == e && forall i :: 0 < i < |t| ==> t[i] == h[i - 1];
    }
  }

  lemma {:induction false} SameSettles(h: seq<Row>)
    requires Unique(h)
    ensures OnlySettles(h, h)
  {
    assert Rewrites(h, h);
    RewritesSettle(h, h);
  }

  // Whatever step is taken, a stored row that is there before and after only settles: a confirmed row stays confirmed,
  // and a definite one never becomes a maybe again.
  lemma {:induction false} StepSettles(s: State, e: Event, k: Key)
    requires Valid(s)
    ensures OnlySettles(ListOf(s.stored, k), ListOf(Step(s, e).stored, k))
  {
    hide Recorded, Changed, OnlySettles;
    var h := ListOf(s.stored, k);
    assert Unique(h);
    SameSettles(h);
    NoneSettles(h);
    if e.WriteAnswer? && e.ok && IsWriting(s.job) {
      match s.job
      case RecordWriting(at, row, list) => if at == k { RecordSettles(h, row); }
      case DrainWriting(p, list, rest) => if p.k == k { RecordSettles(h, p.row); }
      case ChangeWriting(at, list) =>
        if at == k {
          var c :| list == Changed(h, c);
          ChangeRewrites(h, c);
          RewritesSettle(h, list);
        }
      case _ =>
    }
  }

  lemma NoneSettles(h: seq<Row>)
    ensures OnlySettles(h, [])
  {
  }

  // ---- A recorded transaction is not lost ----

  predicate IsParked(ps: seq<Parked>, k: Key, txid: string) { exists i :: 0 <= i < |ps| && ps[i].k == k && ps[i].row.txid == txid }

  // The callback holds the row in its hands.
  predicate InHand(j: Job, k: Key, txid: string) {
    match j
    case RecordReading(at, row) => at == k && row.txid == txid
    case RecordWriting(at, row, _) => at == k && row.txid == txid
    case DrainReading(p, rest) => (p.k == k && p.row.txid == txid) || IsParked(rest, k, txid)
    case DrainWriting(p, _, rest) => (p.k == k && p.row.txid == txid) || IsParked(rest, k, txid)
    case _ => false
  }

  predicate Held(s: State, k: Key, txid: string) {
    && (HasTx(ListOf(s.stored, k), txid) || IsParked(s.pending, k, txid) || InHand(s.job, k, txid))
    && !(s.job.Deleting? && s.job.k == k)
  }

  predicate Ends(e: Event, k: Key) { e == Remove(k) || e.Reset? }

  // The write puts down a full list of 200 newer rows.
  predicate Displaces(s: State, e: Event, k: Key, txid: string) {
    e == WriteAnswer(true) &&
    match s.job
    case RecordWriting(at, row, _) => at == k && Displaced(ListOf(s.stored, k), row, txid)
    case DrainWriting(p, _, _) => p.k == k && Displaced(ListOf(s.stored, k), p.row, txid)
    case _ => false
  }

  lemma {:induction false} ParkedSnoc(ps: seq<Parked>, p: Parked, k: Key, txid: string)
    ensures IsParked(ps + [p], k, txid) <==> IsParked(ps, k, txid) || (p.k == k && p.row.txid == txid)
  {
    if IsParked(ps, k, txid) { var i :| 0 <= i < |ps| && ps[i].k == k && ps[i].row.txid == txid; assert (ps + [p])[i] == ps[i]; }
    assert (ps + [p])[|ps|] == p;
    if IsParked(ps + [p], k, txid) {
      var i :| 0 <= i <= |ps| && (ps + [p])[i].k == k && (ps + [p])[i].row.txid == txid;
      if i < |ps| { assert ps[i] == (ps + [p])[i]; }
    }
  }

  lemma {:induction false} TwinKeeps(ps: seq<Parked>, at: Key, e: Row, k: Key, txid: string)
    requires IsParked(ps, k, txid)
    ensures IsParked(WithoutTwin(ps, at, e), k, txid) || (at == k && e.txid == txid)
  {
    var n := |ps| - 1;
    var init, p := ps[..n], ps[n];
    assert ps == init + [p];
    ParkedSnoc(init, p, k, txid);
    var w := WithoutTwin(init, at, e);
    ParkedSnoc(w, p, k, txid);
    if IsParked(init, k, txid) { TwinKeeps(init, at, e, k, txid); }
  }

  lemma {:induction false} WithoutKeeps(ps: seq<Parked>, at: Key, k: Key, txid: string)
    requires IsParked(ps, k, txid) && at != k
    ensures IsParked(Without(ps, at), k, txid)
  {
    var n := |ps| - 1;
    var init, p := ps[..n], ps[n];
    assert ps == init + [p];
    ParkedSnoc(init, p, k, txid);
    ParkedSnoc(Without(init, at), p, k, txid);
    if IsParked(init, k, txid) { WithoutKeeps(init, at, k, txid); }
  }

  lemma UnmarkedKeeps(ps: seq<Parked>, at: Key, t: string, k: Key, txid: string)
    requires IsParked(ps, k, txid)
    ensures IsParked(Unmarked(ps, at, t), k, txid)
  {
    var i :| 0 <= i < |ps| && ps[i].k == k && ps[i].row.txid == txid;
    assert Unmarked(ps, at, t)[i].k == k && Unmarked(ps, at, t)[i].row.txid == txid;
  }

  lemma DrainHolds(rest: seq<Parked>, k: Key, txid: string)
    requires IsParked(rest, k, txid)
    ensures InHand(DrainNext(rest), k, txid)
  {
    var i :| 0 <= i < |rest| && rest[i].k == k && rest[i].row.txid == txid;
    if i > 0 { assert rest[1..][i - 1] == rest[i]; }
  }

  lemma {:induction false} ReadHolds(s: State, k: Key, txid: string)
    requires Valid(s) && Held(s, k, txid) && IsReading(s.job)
    ensures Held(OnRead(s), k, txid)
  {
    hide Recorded, Changed, HasTx, IsParked;
    assert Capped([]);
    match s.job
    case RecordReading(at, row) => RecordKeeps(ListOf(s.stored, at), row, txid);
    case DrainReading(p, rest) =>
      RecordKeeps(ListOf(s.stored, p.k), p.row, txid);
      if IsParked(rest, k, txid) { DrainHolds(rest, k, txid); }
    case _ =>
  }

  lemma {:induction false} FailureHolds(s: State, k: Key, txid: string)
    requires Held(s, k, txid)
    ensures Held(OnFailure(s), k, txid)
  {
    hide HasTx, IsParked;
    match s.job
    case RecordReading(at, row) => ParkedSnoc(s.pending, Parked(at, row), k, txid);
    case RecordWriting(at, row, _) => ParkedSnoc(s.pending, Parked(at, row), k, txid);
    case DrainReading(p, rest) =>
      ParkedSnoc(s.pending, p, k, txid);
      if IsParked(rest, k, txid) { DrainHolds(rest, k, txid); }
    case DrainWriting(p, _, rest) =>
      ParkedSnoc(s.pending, p, k, txid);
      if IsParked(rest, k, txid) { DrainHolds(rest, k, txid); }
    case _ =>
  }

  lemma {:induction false} WriteHolds(s: State, k: Key, txid: string)
    requires Valid(s) && Held(s, k, txid) && IsWriting(s.job) && !Displaces(s, WriteAnswer(true), k, txid)
    ensures Held(OnWrite(s), k, txid)
  {
    hide Recorded, Changed, HasTx, IsParked, Displaced;
    assert Capped([]);
    match s.job
    case RecordWriting(at, row, list) => RecordKeeps(ListOf(s.stored, at), row, txid);
    case DrainWriting(p, list, rest) =>
      RecordKeeps(ListOf(s.stored, p.k), p.row, txid);
      if IsParked(rest, k, txid) { DrainHolds(rest, k, txid); }
    case ChangeWriting(at, list) =>
      if at == k {
        var c :| list == Changed(ListOf(s.stored, k), c);
        ChangeRewrites(ListOf(s.stored, k), c);
        RewritesKeep(ListOf(s.stored, k), list, txid);
      }
    case _ =>
  }

  lemma {:induction false} StepHolds(s: State, e: Event, k: Key, txid: string)
    requires Valid(s) && Held(s, k, txid) && !Ends(e, k) && !Displaces(s, e, k, txid)
    ensures Held(Step(s, e), k, txid)
  {
    hide HasTx, IsParked, OnRead, OnWrite, OnFailure, WithoutTwin, Without, Unmarked, Valid;
    match e
    case Record(at, row) =>
      ParkedSnoc(s.pending, Parked(at, row), k, txid);
      if IsParked(s.pending, k, txid) { TwinKeeps(s.pending, at, row, k, txid); }
    case Drain => if IsParked(s.pending, k, txid) { DrainHolds(s.pending, k, txid); }
    case UnmarkParked(at, t) => if IsParked(s.pending, k, txid) { UnmarkedKeeps(s.pending, at, t, k, txid); }
    case Remove(at) => if IsParked(s.pending, k, txid) { WithoutKeeps(s.pending, at, k, txid); }
    case ReadAnswer(ok) => if IsReading(s.job) { if ok { ReadHolds(s, k, txid); } else { FailureHolds(s, k, txid); } }
    case WriteAnswer(ok) => if IsWriting(s.job) { if ok { WriteHolds(s, k, txid); } else { FailureHolds(s, k, txid); } }
    case _ =>
  }

  ghost predicate Undisturbed(s: State, es: seq<Event>, k: Key, txid: string) {
    es == [] || (Undisturbed(s, es[..|es| - 1], k, txid) && !Ends(es[|es| - 1], k)
                 && !Displaces(Run(s, es[..|es| - 1]), es[|es| - 1], k, txid))
  }

  // Over every run of failing and succeeding storage, locks, unlocks and other records, a row that is held stays held until
  // it is displaced by newer rows, its account is removed or the wallet is reset; between callbacks that means it is
  // stored or parked.
  lemma {:induction false} RunHolds(s: State, es: seq<Event>, k: Key, txid: string)
    requires Valid(s) && Held(s, k, txid) && Undisturbed(s, es, k, txid)
    ensures Held(Run(s, es), k, txid)
    ensures Run(s, es).job.Idle? ==> HasTx(ListOf(Run(s, es).stored, k), txid) || IsParked(Run(s, es).pending, k, txid)
  {
    if es != [] {
      RunHolds(s, es[..|es| - 1], k, txid);
      RunValid(s, es[..|es| - 1]);
      StepHolds(Run(s, es[..|es| - 1]), es[|es| - 1], k, txid);
    }
  }

  // A record is held from the moment its callback starts, but on a wiped wallet that is locked.
  lemma RecordIsHeld(s: State, k: Key, row: Row)
    requires s.job.Idle?
    ensures Held(Step(s, Record(k, row)), k, row.txid) || (!s.unlocked && s.wiped)
  {
    ParkedSnoc(s.pending, Parked(k, row), k, row.txid);
  }

  // ---- What a store that answers brings about ----

  // A list after a record: as recorded, or as it was when there is nothing to write.
  ghost function RecordedIn(stored: map<Key, seq<Row>>, p: Parked): map<Key, seq<Row>> {
    var list := Recorded(ListOf(stored, p.k), p.row);
    if list.Some? then stored[p.k := list.value] else stored
  }

  ghost function AllRecorded(stored: map<Key, seq<Row>>, ps: seq<Parked>): map<Key, seq<Row>> {
    if ps == [] then stored else RecordedIn(AllRecorded(stored, ps[..|ps| - 1]), ps[|ps| - 1])
  }

  // On an unlocked wallet a record whose read and write are answered is written at once; it takes over from a parked maybe
  // of the same transaction when it is definite, and from nothing else.
  lemma RecordLands(s: State, k: Key, row: Row)
    requires s.job.Idle? && s.unlocked
    ensures var t := Step(Step(Step(s, Record(k, row)), ReadAnswer(true)), WriteAnswer(true));
      && t.job.Idle? && t.stored == RecordedIn(s.stored, Parked(k, row))
      && forall p :: p in t.pending <==> p in s.pending && !(p.k == k && p.row.txid == row.txid && p.row.maybe && !row.maybe)
  {
    TwinIs(s.pending, k, row);
    hide Recorded;
  }

  lemma {:induction false} TwinIs(ps: seq<Parked>, k: Key, e: Row)
    ensures forall p :: p in WithoutTwin(ps, k, e) <==> p in ps && !(p.k == k && p.row.txid == e.txid && p.row.maybe && !e.maybe)
  {
    if ps != [] {
      TwinIs(ps[..|ps| - 1], k, e);
      assert forall p :: p in ps <==> p in ps[..|ps| - 1] || p == ps[|ps| - 1];
    }
  }

  // A locked wallet parks the row, a wiped one drops it; a failed read or write parks it too, and a drain starts none while
  // locked.
  lemma LockedOnlyParks(s: State, k: Key, row: Row, change: Change)
    requires s.job.Idle? && !s.unlocked
    ensures Step(s, Record(k, row)) == if s.wiped then s else s.(pending := s.pending + [Parked(k, row)])
    ensures Step(s, Drain) == s && Step(s, Alter(k, change)) == s
  {
  }

  lemma FailureParks(s: State, k: Key, row: Row)
    requires s.job.Idle? && s.unlocked
    ensures var t := Step(s, Record(k, row)); Step(t, ReadAnswer(false)) == t.(pending := t.pending + [Parked(k, row)], job := Idle)
    ensures var t := Step(Step(s, Record(k, row)), ReadAnswer(true));
      t.job.RecordWriting? ==> Step(t, WriteAnswer(false)) == t.(pending := t.pending + [Parked(k, row)], job := Idle)
  {
    hide Recorded, WithoutTwin;
  }

  function Served(n: nat): seq<Event> { if n == 0 then [] else Served(n - 1) + [ReadAnswer(true), WriteAnswer(true)] }

  lemma RunTwo(s: State, es: seq<Event>, a: Event, b: Event)
    ensures Run(s, es + [a, b]) == Step(Step(Run(s, es), a), b)
  {
    assert (es + [a, b])[..|es| + 1] == es + [a] && (es + [a])[..|es|] == es;
  }

  lemma {:induction false} RoundsRecord(s: State, ps: seq<Parked>, n: nat)
    requires s.job == DrainNext(ps) && n <= |ps|
    ensures Run(s, Served(n)) == s.(job := DrainNext(ps[n..]), stored := AllRecorded(s.stored, ps[..n]))
  {
    hide Recorded, Step;
    if n > 0 {
      RoundsRecord(s, ps, n - 1);
      RunTwo(s, Served(n - 1), ReadAnswer(true), WriteAnswer(true));
      assert ps[n - 1..][0] == ps[n - 1] && ps[n - 1..][1..] == ps[n..];
      assert ps[..n][..n - 1] == ps[..n - 1];
      RoundRecords(Run(s, Served(n - 1)), ps[n - 1..]);
    }
  }

  lemma RoundRecords(s: State, ps: seq<Parked>)
    requires ps != [] && s.job == DrainNext(ps)
    ensures Step(Step(s, ReadAnswer(true)), WriteAnswer(true)) == s.(job := DrainNext(ps[1..]), stored := RecordedIn(s.stored, ps[0]))
  {
    hide Recorded;
  }

  // A drain whose reads and writes are answered records every parked row, in order, and leaves none parked.
  lemma {:induction false} DrainStoresAll(s: State)
    requires s.job.Idle? && s.unlocked
    ensures var t := Run(Step(s, Drain), Served(|s.pending|));
      t.job.Idle? && t.pending == [] && t.stored == AllRecorded(s.stored, s.pending)
  {
    RoundsRecord(Step(s, Drain), s.pending, |s.pending|);
    assert s.pending[|s.pending|..] == [] && s.pending[..|s.pending|] == s.pending;
  }

  // A change whose read and write are answered changes its list and nothing else.
  lemma ChangeLands(s: State, k: Key, c: Change)
    requires s.job.Idle? && s.unlocked
    ensures var t := Step(Step(Step(s, Alter(k, c)), ReadAnswer(true)), WriteAnswer(true));
      && t.job.Idle? && t.pending == s.pending && ListOf(t.stored, k) == Changed(ListOf(s.stored, k), c)
      && forall other :: other != k ==> ListOf(t.stored, other) == ListOf(s.stored, other)
  {
    hide Changed;
  }

  // A duplicate's answer settles its parked twin too, and touches no other row.
  lemma UnmarkIs(s: State, k: Key, txid: string)
    ensures var t := Step(s, UnmarkParked(k, txid));
      t == s.(pending := t.pending) && |t.pending| == |s.pending| && forall i :: 0 <= i < |s.pending| ==>
        t.pending[i] == if s.pending[i].k == k && s.pending[i].row.txid == txid then Parked(k, s.pending[i].row.(maybe := false)) else s.pending[i]
  {
  }

  // A removal whose delete lands leaves the account no list and no parked row.
  lemma {:induction false} RemovalLands(s: State, k: Key)
    requires s.job.Idle?
    ensures var t := Step(Step(s, Remove(k)), WriteAnswer(true));
      t.job.Idle? && t.stored == s.stored - {k} && forall p :: p in t.pending <==> p in s.pending && p.k != k
  {
    WithoutIs(s.pending, k);
  }

  lemma {:induction false} WithoutIs(ps: seq<Parked>, k: Key)
    ensures forall p :: p in Without(ps, k) <==> p in ps && p.k != k
  {
    if ps != [] {
      WithoutIs(ps[..|ps| - 1], k);
      assert forall p :: p in ps <==> p in ps[..|ps| - 1] || p == ps[|ps| - 1];
    }
  }

  // ---- A reset ----

  // A wiped, locked wallet whose lists are among `left`, with nothing parked and nothing being written.
  ghost predicate Emptied(s: State, left: set<Key>) {
    s.wiped && !s.unlocked && s.pending == [] && s.stored.Keys <= left && (s.job.Idle? || s.job.Deleting?)
  }

  // No new vault is sealed and no unlock ends.
  predicate StaysShut(es: seq<Event>) { NewVault !in es && Unlock !in es }

  lemma {:induction false} StaysEmptied(s: State, es: seq<Event>, left: set<Key>)
    requires Emptied(s, left) && StaysShut(es)
    ensures Emptied(Run(s, es), left)
  {
    hide Recorded, Changed, WithoutTwin;
    if es != [] { StaysEmptied(s, es[..|es| - 1], left); }
  }

  lemma {:induction false} StaysWiped(s: State, es: seq<Event>)
    requires s.wiped && !s.unlocked && StaysShut(es)
    ensures Run(s, es).wiped && !Run(s, es).unlocked
  {
    hide Recorded, Changed, WithoutTwin, OnRead, OnWrite, OnFailure;
    if es != [] {
      StaysWiped(s, es[..|es| - 1]);
      LocksKept(Run(s, es[..|es| - 1]), es[|es| - 1]);
    }
  }

  lemma LocksKept(s: State, e: Event)
    ensures !e.NewVault? && !e.Unlock? && s.wiped && !s.unlocked ==> Step(s, e).wiped && !Step(s, e).unlocked
  {
  }

  // From any state: once the wallet is wiped and the chained reset has run, whatever was queued and answered in between and
  // after, no row is parked and none is stored but under a key the reset did not name, until a new vault is sealed.
  lemma {:induction false} ResetLeavesNoRow(s: State, before: seq<Event>, deleted: set<Key>, after: seq<Event>)
    requires StaysShut(before) && StaysShut(after) && Run(Step(s, Wipe), before).job.Idle?
    ensures var u := Run(Step(s, Wipe), before);
            var t := Run(Step(u, Reset(deleted)), after);
      t.pending == [] && t.stored.Keys <= u.stored.Keys - deleted
  {
    hide Recorded, Changed, WithoutTwin;
    StaysWiped(Step(s, Wipe), before);
    var u := Run(Step(s, Wipe), before);
    StaysEmptied(Step(u, Reset(deleted)), after, u.stored.Keys - deleted);
  }

  // The guard is needed: a record does not ask whether the wallet was wiped, so an unlock that ends after the reset lets
  // the next row of the old wallet in.
  lemma UnlockAfterResetRecords(s: State, deleted: set<Key>, k: Key, row: Row)
    requires s.job.Idle? && k in deleted
    ensures var shut := Step(Step(s, Wipe), Reset(deleted));
            var t := Step(Step(Step(Step(shut, Unlock), Record(k, row)), ReadAnswer(true)), WriteAnswer(true));
      k !in shut.stored && t.wiped && k in t.stored && t.stored[k] == [row]
  {
    var shut := Step(Step(s, Wipe), Reset(deleted));
    RecordsFirst(Step(shut, Unlock), k, row);
  }

  lemma RecordsFirst(s: State, k: Key, row: Row)
    requires s.job.Idle? && s.unlocked && k !in s.stored
    ensures Step(Step(Step(s, Record(k, row)), ReadAnswer(true)), WriteAnswer(true)).stored == s.stored[k := [row]]
    ensures Step(Step(Step(s, Record(k, row)), ReadAnswer(true)), WriteAnswer(true)).wiped == s.wiped
  {
    hide WithoutTwin;
    assert ListOf(s.stored, k) == [] && !HasTx([], row.txid);
    assert ([row] + [])[..Min(1, HISTORY_CAP)] == [row];
    assert Recorded([], row) == Some([row]);
    hide Recorded;
    assert Step(Step(s, Record(k, row)), ReadAnswer(true)).job == RecordWriting(k, row, [row]);
  }

  // ---- The class: one method a section between two awaits ----

  // What a submit answered.
  datatype Outcome = Sent(spent: set<string>) | MaybeInFlight | Duplicate | Rejected

  class TxHistory {
    var stored: map<Key, seq<Row>>
    var pendingHist: seq<Parked>
    var unlocked: bool
    var wiped: bool
    var job: Job                  // histChain's running callback

    ghost function Now(): State reads this { State(stored, pendingHist, unlocked, wiped, job) }

    constructor ()
      ensures Now() == State(map[], [], false, false, Idle) && Valid(Now())
    {
      stored, pendingHist, unlocked, wiped, job := map[], [], false, false, Idle;
    }

    // What maybeRecord asks for: a definite row, a maybe one under the local txid, or the resolution of an earlier maybe;
    // a duplicate never adds a row.
    static function MaybeRecord(k: Key, r: Outcome, row: Row): (es: seq<Event>)
      ensures forall e :: e in es && e.Record? ==> e.k == k && e.row.txid == row.txid && (e.row.maybe <==> r.MaybeInFlight?)
      ensures (exists e :: e in es && e.Record?) <==> r.Sent? || r.MaybeInFlight?
      ensures forall spent :: Alter(k, Latch(spent)) in es <==> r == Sent(spent) && spent != {}
      ensures r.Duplicate? ==> es == [UnmarkParked(k, row.txid), Alter(k, ClearMaybe(row.txid))]
      ensures r.Rejected? ==> es == []
    {
      match r
      case Sent(spent) =>
        var own := Record(k, row.(maybe := false));
        assert own in [own, Alter(k, Latch(spent))];
        if spent == {} then [own] else [own, Alter(k, Latch(spent))]
      case MaybeInFlight =>
        var own := Record(k, row.(maybe := true));
        assert own in [own];
        [own]
      case Duplicate => [UnmarkParked(k, row.txid), Alter(k, ClearMaybe(row.txid))]
      case Rejected => []
    }

    method RecordTx(k: Key, row: Row)
      modifies `pendingHist, `job
      ensures Now() == Step(old(Now()), Record(k, row))
    {
      if !job.Idle? { return; }
      if !unlocked {
        if !wiped { pendingHist := pendingHist + [Parked(k, row)]; }
        return;
      }
      var kept := [];
      for i := 0 to |pendingHist|
        invariant kept == WithoutTwin(pendingHist[..i], k, row)
      {
        assert pendingHist[..i + 1][..i] == pendingHist[..i];
        var p := pendingHist[i];
        if !(p.k == k && p.row.txid == row.txid && p.row.maybe && !row.maybe) { kept := kept + [p]; }
      }
      assert pendingHist[..|pendingHist|] == pendingHist;
      pendingHist := kept;
      job := RecordReading(k, row);
    }

    method DrainPendingHist()
      modifies `pendingHist, `job
      ensures Now() == Step(old(Now()), Drain)
    {
      if !job.Idle? || !unlocked { return; }
      var parked := pendingHist;
      pendingHist := [];
      job := DrainNext(parked);
    }

    method ReadAnswered(ok: bool)
      modifies `pendingHist, `job
      ensures Now() == Step(old(Now()), ReadAnswer(ok))
    {
      if !IsReading(job) { return; }
      if !ok { Repark(); return; }
      match job
      case RecordReading(k, row) =>
        var list := Recorded(ListOf(stored, k), row);
        job := if list.Some? then RecordWriting(k, row, list.value) else Idle;
      case DrainReading(p, rest) =>
        var list := Recorded(ListOf(stored, p.k), p.row);
        job := if list.Some? then DrainWriting(p, list.value, rest) else DrainNext(rest);
      case ChangeReading(k, change) =>
        var list := ListOf(stored, k);
        var next := Changed(list, change);
        job := if next == list then Idle else ChangeWriting(k, next);
      case _ =>
    }

    // A read or a write failed.
    method Repark()
      modifies `pendingHist, `job
      ensures Now() == OnFailure(old(Now()))
    {
      match job
      case RecordReading(k, row) => pendingHist, job := pendingHist + [Parked(k, row)], Idle;
      case RecordWriting(k, row, _) => pendingHist, job := pendingHist + [Parked(k, row)], Idle;
      case DrainReading(p, rest) => pendingHist, job := pendingHist + [p], DrainNext(rest);
      case DrainWriting(p, _, rest) => pendingHist, job := pendingHist + [p], DrainNext(rest);
      case _ => job := Idle;
    }

    method WriteAnswered(ok: bool)
      modifies `stored, `pendingHist, `job
      ensures Now() == Step(old(Now()), WriteAnswer(ok))
    {
      if !IsWriting(job) { return; }
      if !ok { Repark(); return; }
      match job
      case RecordWriting(k, _, list) => stored, job := stored[k := list], Idle;
      case DrainWriting(p, list, rest) => stored, job := stored[p.k := list], DrainNext(rest);
      case ChangeWriting(k, list) => stored, job := stored[k := list], Idle;
      case Deleting(k) => stored, job := stored - {k}, Idle;
      case _ =>
    }
  }
}
