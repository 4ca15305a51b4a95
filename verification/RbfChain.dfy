/** What holds along a chain of replacements: each call starts from the options the previous
    successful call returned. */
module RbfChain {
  import opened Bitcoin
  import opened Ledgers
  import opened RbfPlan

  /** One successful call. */
  datatype Call = Call(g: seq<Gathered>, pool: seq<Utxo>, est: Pos, tx: Tx, rate: int, next: Rbf)

  ghost predicate Succeeds(p: Params, r: Rbf, c: Call) {
    && Accepted(p, r, c.g, c.pool, c.est, c.tx, c.rate, c.next)
    && (!r.IsNil() ==> c.pool == r.firstUtxos)
  }

  /** The options after the calls; a chain starts from nothing. */
  function After(calls: seq<Call>): Rbf {
    if calls == [] then EMPTY_RBF else Last(calls).next
  }

  ghost predicate IsChain(p: Params, calls: seq<Call>) {
    calls == [] || (IsChain(p, DropLast(calls)) && Succeeds(p, After(DropLast(calls)), Last(calls)))
  }

  lemma {:induction false} PrefixIsChain(p: Params, calls: seq<Call>, n: nat)
    requires IsChain(p, calls) && n <= |calls|
    ensures IsChain(p, calls[..n])
  {
    hide Succeeds;
    if n < |calls| {
      PrefixIsChain(p, DropLast(calls), n);
      assert DropLast(calls)[..n] == calls[..n];
    } else {
      assert calls[..n] == calls;
    }
  }

  function History(calls: seq<Call>): seq<Gathered> {
    if calls == [] then [] else History(DropLast(calls)) + Last(calls).g
  }

  // ------------------------------------------------ conflict

  /** Options of a live chain: the first raw input is also the first input of the first transaction. */
  ghost predicate Live(r: Rbf) {
    |r.vin| > 0 && |r.firstInputs| > 0 && r.vin[0].op == r.firstInputs[0].op
  }

  /** The outpoint every transaction of the chain spends. */
  function Anchor(r: Rbf): OutPoint {
    if |r.firstInputs| > 0 then r.firstInputs[0].op else OutPoint(Foreign(""), 0)
  }

  /** Every candidate spends all stored raw inputs, in order. */
  lemma {:induction false} BuiltSpendsRawInputs(p: Params, rate: int, r: Rbf, g: seq<Gathered>, pool: seq<Utxo>, tx: Tx)
    requires Builds(p, rate, Extend(p, r, g), pool, tx)
    ensures Ops(r.vin) <= Prevs(tx.ins)
    ensures forall i :: 0 <= i < |r.vin| ==> Spends(tx, r.vin[i].op)
  {
    var d := Extend(p, r, g);
    var used := d.vin + pool[..|tx.ins| - |d.vin|];
    assert Prevs(tx.ins) == Ops(used);
    forall i | 0 <= i < |r.vin| ensures i < |tx.ins| && tx.ins[i].prev == r.vin[i].op {
      assert Prevs(tx.ins)[i] == Ops(used)[i];
      assert used[i] == r.vin[i];
    }
  }

  /** So the check that a replacement keeps one of the first inputs cannot fail. */
  lemma {:induction false} GuardNeverFails(p: Params, r: Rbf, g: seq<Gathered>, pool: seq<Utxo>)
    requires Live(r)
    ensures !LostFirstInputs(p, r, g, pool)
  {
    forall tx, rate | Builds(p, rate, Extend(p, r, g), pool, tx)
      ensures !KeepsNoFirstInput(r, tx)
    {
      BuiltSpendsRawInputs(p, rate, r, g, pool, tx);
      assert Spends(tx, r.firstInputs[0].op);
    }
  }

  /** A successful call leaves the options of a live chain, whose raw inputs contain the earlier
      ones and are all spent by the new transaction. */
  lemma {:induction false} CallKeepsChain(p: Params, r: Rbf, c: Call)
    requires Succeeds(p, r, c) && (r == EMPTY_RBF || Live(r))
    ensures Live(c.next) && Ops(r.vin) <= Ops(c.next.vin) && Ops(c.next.vin) <= Prevs(c.tx.ins)
    ensures Live(r) ==> Anchor(c.next) == Anchor(r)
    ensures Spends(c.tx, Anchor(c.next))
    ensures !c.next.IsNil() && c.rate >= 1
    ensures |c.next.recipients| == |r.recipients| + |Recipients(c.g)|
  {
    hide SignedBy, SignerTable, WitnessSize, Types, Scripts, Secrets, Sequences, VSize, TotalFee;
    var d := Extend(p, r, c.g);
    BuiltHasInput(p, c.rate, d, c.pool, c.tx);
    BuiltSpendsRawInputs(p, c.rate, r, c.g, c.pool, c.tx);
    var used := d.vin + c.pool[..|c.tx.ins| - |d.vin|];
    assert Prevs(c.tx.ins) == Ops(used);
    OpsConcat(r.vin, RawInputs(c.g));
    forall i | 0 <= i < |d.vin| ensures c.tx.ins[i].prev == d.vin[i].op {
      assert Prevs(c.tx.ins)[i] == Ops(used)[i];
    }
    if |d.vin| == 0 {
      assert Ops(c.next.vin) == Prevs(c.tx.ins);
    } else {
      assert c.next.vin == d.vin;
      OpsConcat(d.vin, c.pool[..|c.tx.ins| - |d.vin|]);
    }
  }

  /** Every transaction of a chain spends the anchor of the first. */
  lemma {:induction false} ChainSharesAnchor(p: Params, calls: seq<Call>)
    requires IsChain(p, calls) && |calls| > 0
    ensures Live(Last(calls).next) && Anchor(Last(calls).next) == Anchor(calls[0].next)
    ensures Spends(Last(calls).tx, Anchor(calls[0].next))
  {
    if |calls| == 1 {
    } else {
      ChainSharesAnchor(p, DropLast(calls));
    }
    CallKeepsChain(p, After(DropLast(calls)), Last(calls));
  }

  /** A successor spends every raw input stored by any of its predecessors. */
  lemma {:induction false} SuccessorSpendsStoredInputs(p: Params, calls: seq<Call>, i: nat)
    requires IsChain(p, calls) && i < |calls|
    ensures Ops(calls[i].next.vin) <= Ops(Last(calls).next.vin)
    ensures Ops(calls[i].next.vin) <= Prevs(Last(calls).tx.ins)
  {
    hide Succeeds;
    var d := DropLast(calls);
    if i == |d| {
    } else {
      SuccessorSpendsStoredInputs(p, d, i);
    }
    if |d| > 0 {
      ChainSharesAnchor(p, d);
    }
    CallKeepsChain(p, After(d), Last(calls));
  }

  /** All transactions of a chain spend one common outpoint, so a ledger that has confirmed one
      of them can confirm no other. */
  lemma {:induction false} AtMostOneOfChainConfirms(p: Params, calls: seq<Call>, l: Ledger, i: nat, j: nat)
    requires IsChain(p, calls) && i < |calls| && j < |calls|
    ensures !Spendable(l.Confirm(calls[i].tx), calls[j].tx)
  {
    BranchesConflict(p, calls, calls, l, i, j);
  }

  lemma {:induction false} ConflictIsFinal(l: Ledger, a: Tx, b: Tx, op: OutPoint)
    requires Spends(a, op) && Spends(b, op)
    ensures op in l.Confirm(a).spent && Dead(l.Confirm(a), b) && !Spendable(l.Confirm(a), b)
  {
    var i :| 0 <= i < |a.ins| && a.ins[i].prev == op;
    assert Prevs(a.ins)[i] == op;
    var j :| 0 <= j < |b.ins| && b.ins[j].prev == op;
    assert b.ins[j].prev in l.Confirm(a).spent;
  }

  /** A record write that is lost inside a live chain is harmless: whatever is rebuilt from an
      older record of the chain, any number of times, conflicts with what was submitted before.
      Only the record of the first transaction must not be lost. */
  lemma {:induction false} BranchesConflict(p: Params, a: seq<Call>, b: seq<Call>, l: Ledger, i: nat, j: nat)
    requires IsChain(p, a) && IsChain(p, b) && i < |a| && j < |b| && a[0] == b[0]
    ensures !Spendable(l.Confirm(a[i].tx), b[j].tx)
  {
    hide Succeeds;
    PrefixIsChain(p, a, i + 1);
    ChainSharesAnchor(p, a[..i + 1]);
    PrefixIsChain(p, b, j + 1);
    ChainSharesAnchor(p, b[..j + 1]);
    ConflictIsFinal(l, a[i].tx, b[j].tx, Anchor(a[0].next));
  }

  // ------------------------------------------------ incremental equals from scratch

  function FrozenBase(p: Params, frozen: seq<Utxo>): Rbf {
    EMPTY_RBF.(vin := frozen, segwit := |frozen| * p.keyWeight)
  }

  /** The options without what only the last transaction determines. */
  function PlanOf(r: Rbf): Rbf {
    r.(feeRate := 0, fee := 0, firstInputs := [], firstUtxos := [])
  }

  /** The stored plan is the one computed from scratch: frozen wallet inputs first, then the
      actions of the whole history. */
  ghost predicate Planned(p: Params, r: Rbf, hist: seq<Gathered>, frozen: seq<Utxo>) {
    PlanOf(r) == Extend(p, FrozenBase(p, frozen), hist)
  }

  function FrozenAfter(r: Rbf, c: Call, frozen: seq<Utxo>): seq<Utxo> {
    if |r.vin| == 0 && |RawInputs(c.g)| == 0 then InputsOf(SignerTable(r, c.g, c.pool), c.tx) else frozen
  }

  lemma {:induction false} NoRawInputs(p: Params, g: seq<Gathered>)
    requires RawInputs(g) == []
    ensures WitnessSize(p, g) == 0
  {
    if g == [] {
    } else {
      assert |RawInputs(g)| == |RawInputs(DropLast(g))| + |Last(g).utxos|;
      NoRawInputs(p, DropLast(g));
    }
  }

  lemma {:induction false} PlannedDraft(p: Params, r: Rbf, hist: seq<Gathered>, frozen: seq<Utxo>, g: seq<Gathered>)
    requires Planned(p, r, hist, frozen)
    ensures PlanOf(Extend(p, r, g)) == Extend(p, FrozenBase(p, frozen), hist + g)
  {
    assert PlanOf(Extend(p, r, g)) == Extend(p, PlanOf(r), g);
    hide Extend;
    ExtendConcat(p, FrozenBase(p, frozen), hist, g);
  }

  lemma {:induction false} RecordedPlan(p: Params, r: Rbf, c: Call)
    requires Succeeds(p, r, c)
    ensures
      var d := Extend(p, r, c.g);
      var ins := InputsOf(SignerTable(r, c.g, c.pool), c.tx);
      PlanOf(c.next) == if |d.vin| > 0 then PlanOf(d) else PlanOf(d).(vin := ins, segwit := |ins| * p.keyWeight)
  {
    hide Extend, SignerTable, Builds, SignedBy;
  }

  lemma {:induction false} ThawedBase(p: Params, hist: seq<Gathered>, frozen: seq<Utxo>)
    requires RawInputs(hist) == []
    ensures Extend(p, FrozenBase(p, []), hist).(vin := frozen, segwit := |frozen| * p.keyWeight)
         == Extend(p, FrozenBase(p, frozen), hist)
  {
    NoRawInputs(p, hist);
    assert frozen + RawInputs(hist) == frozen;
  }

  lemma {:induction false} PlannedStep(p: Params, r: Rbf, hist: seq<Gathered>, frozen: seq<Utxo>, c: Call)
    requires Planned(p, r, hist, frozen) && Succeeds(p, r, c)
    ensures Planned(p, c.next, hist + c.g, FrozenAfter(r, c, frozen))
  {
    PlannedDraft(p, r, hist, frozen, c.g);
    RecordedPlan(p, r, c);
    assert PlanOf(Extend(p, r, c.g)).vin == r.vin + RawInputs(c.g) == frozen + RawInputs(hist + c.g);
    hide Succeeds, SignerTable;
    if |r.vin + RawInputs(c.g)| == 0 {
      assert frozen == [] && RawInputs(hist + c.g) == [];
      ThawedBase(p, hist + c.g, FrozenAfter(r, c, frozen));
    }
  }

  function FrozenOf(calls: seq<Call>): seq<Utxo>
    requires |calls| > 0
  {
    FrozenAfter(EMPTY_RBF, calls[0], [])
  }

  /** After any number of calls, recipients, raw inputs, size and signature maps are those of
      the concatenated action lists, after the wallet inputs an initiate-only first call froze. */
  lemma {:induction false} IncrementalIsFromScratch(p: Params, calls: seq<Call>)
    requires IsChain(p, calls) && |calls| > 0
    ensures Planned(p, Last(calls).next, History(calls), FrozenOf(calls))
  {
    var d := DropLast(calls);
    if d == [] {
      assert History(calls) == [] + calls[0].g;
      StartsPlanned(p);
      PlannedStep(p, EMPTY_RBF, [], [], calls[0]);
    } else {
      IncrementalIsFromScratch(p, d);
      ChainSharesAnchor(p, d);
      PlannedStep(p, After(d), History(d), FrozenOf(d), Last(calls));
    }
  }

  lemma {:induction false} StartsPlanned(p: Params)
    ensures Planned(p, EMPTY_RBF, [], [])
  {
    var z := Extend(p, FrozenBase(p, []), []);
    assert z.vin == [] && z.recipients == [] && z.sigType == map[] && z.sigScript == map[];
    assert z.sigSecret == map[] && z.sigSequence == map[];
  }

  // ------------------------------------------------ fees

  function CallSize(p: Params, r: Rbf, c: Call): Pos {
    VSize(p, Extend(p, r, c.g), c.tx)
  }

  /** Total virtual size of the replacements after the first transaction. */
  function SizesAfterFirst(p: Params, calls: seq<Call>): nat {
    if |calls| <= 1 then 0
    else SizesAfterFirst(p, DropLast(calls)) + CallSize(p, After(DropLast(calls)), Last(calls))
  }

  /** Over n replacements the rate rises by n relay fees, and the absolute fee pays for relaying
      every replacement. */
  lemma {:induction false} FeesGrow(p: Params, calls: seq<Call>)
    requires IsChain(p, calls) && |calls| > 0
    ensures Last(calls).next.feeRate >= calls[0].next.feeRate + (|calls| - 1) * p.minRelayFee
    ensures Last(calls).next.fee >= calls[0].next.fee + p.minRelayFee * SizesAfterFirst(p, calls)
  {
    hide Succeeds, CallSize, Live;
    var d := DropLast(calls);
    if d == [] {
      assert calls[0] == Last(calls);
    } else {
      assert d[0] == calls[0];
      FeesGrow(p, d);
      ChainSharesAnchor(p, d);
      var r, c := After(d), Last(calls);
      ReplacementPays(p, r, c);
      FeeSumStep(p.minRelayFee, SizesAfterFirst(p, d), CallSize(p, r, c), |d|);
    }
  }

  /** The replacement rules on rate and fee for a single call (BIP 125, rules 3 and 4). */
  lemma {:induction false} ReplacementPays(p: Params, r: Rbf, c: Call)
    requires Succeeds(p, r, c) && Live(r)
    ensures c.next.feeRate >= r.feeRate + p.minRelayFee
    ensures c.next.fee >= r.fee + CallSize(p, r, c) * p.minRelayFee
  {
    FeeForIs(p.minRelayFee, CallSize(p, r, c));
  }

  lemma {:induction false} FeeSumStep(m: nat, a: nat, b: nat, n: nat)
    requires n > 0
    ensures m * (a + b) == m * a + b * m
    ensures n * m == (n - 1) * m + m
  {
  }
}
