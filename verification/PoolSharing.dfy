/** The one case in which a successful call hands memory of the old options on to the new ones. */
module PoolSharing {
  import opened Bitcoin
  import opened Ledgers
  import opened RbfPlan
  import opened SignPlan

  function Payment(s: Swap): TxOut { TxOut(s.LockAddress(), s.amount) }

  /** The lowest rate a replacement of options without a rate may use. */
  function LowestRate(p: Params): Pos { if p.minRelayFee > 1 then p.minRelayFee else 1 }

  /** A wallet output that exactly pays for the swap at that rate. */
  function Exact(p: Params, s: Swap): Utxo {
    Utxo(OutPoint(Foreign("coin"), 0), s.amount + FeeFor(LowestRate(p), p.vsize(1, [Payment(s)], p.keyWeight)),
        NoStatus)
  }

  /** Options that count as a replacement but hold no raw input. */
  function Bare(p: Params, s: Swap): Rbf {
    EMPTY_RBF.(firstInputs := [Exact(p, s)], firstUtxos := [Exact(p, s)])
  }

  function Paid(p: Params, s: Swap): Tx {
    Tx([TxIn(Exact(p, s).op, p.rbfSequence, KeyWitness(Exact(p, s).amount))], [Payment(s)])
  }

  lemma {:induction false} FeeForGrows(low: nat, high: nat, size: nat)
    requires low <= high
    ensures 0 <= FeeFor(low, size) <= FeeFor(high, size)
  {
    if size == 0 {
    } else {
      FeeForGrows(low, high, size - 1);
    }
  }

  lemma {:induction false} BareDraft(p: Params, s: Swap, g: seq<Gathered>)
    requires g == [Gathered(ActionItem(Initiate, s, []), [])]
    ensures
      var d := Extend(p, Bare(p, s), g);
      d.vin == [] && d.segwit == 0 && d.sigType == map[] && d.recipients == [Payment(s)]
    ensures RawInputs(g) == []
  {
    InitiateDraft(p, ActionItem(Initiate, s, []));
    assert Extend(p, Bare(p, s), g).vin == Extend(p, EMPTY_RBF, g).vin;
  }

  /** The payment is what the builder may answer with, and its fee is exactly what is asked for. */
  lemma {:induction false} PaidBuilds(p: Params, s: Swap, d: Rbf)
    requires s.amount >= 0 && d.vin == [] && d.segwit == 0 && d.recipients == [Payment(s)]
    ensures Builds(p, LowestRate(p), d, [Exact(p, s)], Paid(p, s))
    ensures TotalFee(Amounts([Exact(p, s)]), Paid(p, s)) == FeeFor(LowestRate(p), VSize(p, d, Paid(p, s)))
  {
    var u, pool, tx := Exact(p, s), [Exact(p, s)], Paid(p, s);
    assert VSize(p, d, tx) == p.vsize(1, [Payment(s)], p.keyWeight);
    assert DropLast(pool) == [] && SumUtxos(pool) == u.amount && Amounts(pool) == map[u.op := u.amount];
    assert DropLast(tx.outs) == [] && SumOuts(tx.outs) == s.amount;
    assert DropLast(tx.ins) == [] && SumPrevs(Amounts(pool), tx.ins) == u.amount;
    hide VSize, FeeFor, SumUtxos, SumOuts, SumPrevs, Amounts;
    assert Prevs(tx.ins) == Ops(pool) && d.vin + pool[..1] == pool;
  }

  lemma {:induction false} PaidSigned(p: Params, s: Swap, d: Rbf)
    requires d.sigType == map[]
    ensures SignedBy(p, d, Amounts([Exact(p, s)]), Paid(p, s))
  {
    var u := Exact(p, s);
    assert DropLast([u]) == [] && Amounts([u]) == map[u.op := u.amount];
  }

  /** For every swap with a non-negative amount there are options and an action with which a call can
      succeed while its new options keep the caller's list of wallet outputs. */
  lemma {:induction false} PoolCanBeShared(p: Params, s: Swap) returns (r: Rbf, g: seq<Gathered>, tx: Tx, rate: int)
    requires s.amount >= 0
    ensures KeepsPool(r, g) && !KeepsNoFirstInput(r, tx)
    ensures Built(p, r, g, r.firstUtxos, 1, tx, rate) && Tried(p, r, g, r.firstUtxos, 1, rate)
  {
    hide Extend, RawInputs, Builds, SignedBy, VSize, Amounts, TotalFee;
    r, g, tx, rate := Bare(p, s), [Gathered(ActionItem(Initiate, s, []), [])], Paid(p, s), LowestRate(p);
    BareDraft(p, s, g);
    var d, pool := Extend(p, r, g), [Exact(p, s)];
    PaidBuilds(p, s, d);
    PaidSigned(p, s, d);
    assert tx.ins[0].prev == r.firstInputs[0].op && Spends(tx, r.firstInputs[0].op);
    assert [] + [] + pool == pool;
    assert SignerTable(r, g, pool) == Amounts(pool);
    FeeForGrows(p.minRelayFee, rate, VSize(p, d, tx));
  }
}
