/** The swap wallet: one method per operation, each proved against `RbfPlan`. */
module Wallets {
  import opened Bitcoin
  import opened Ledgers
  import opened RbfPlan
  import opened RbfOptions

  const DUST := 546

  /** The indexer and the node behind it. */
  class Indexer {
    var ledger: Ledger
    var views: Views
    const accepts: Tx -> bool                        // the node's policy
    const loses: Tx -> bool                          // its answer does not arrive in time

    constructor (l: Ledger, v: Views, accepts: Tx -> bool, loses: Tx -> bool)
      ensures ledger == l && views == v && this.accepts == accepts && this.loses == loses
    {
      ledger, views, this.accepts, this.loses := l, v, accepts, loses;
    }

    ghost function Peer(): Node
      reads this
    {
      Node(ledger, accepts, loses)
    }

    method GetUTXOs(a: Address) returns (r: Result<seq<Utxo>>)
      ensures r == if a in views then Ok(views[a]) else Err(IndexerDown)
    {
      if a in views {
        r := Ok(views[a]);
      } else {
        r := Err(IndexerDown);
      }
    }

    /** The node says "missing or spent" of a transaction that is not spendable, and takes any
        other one its policy accepts; the caller may still see an error. */
    method SubmitTx(tx: Tx) returns (err: Option<Error>)
      modifies this`ledger
      ensures err == if !Spendable(old(ledger), tx) then Some(InputsMissingOrSpent)
                     else if !accepts(tx) || loses(tx) then Some(SubmitFailed)
                     else None
      ensures ledger == if Spendable(old(ledger), tx) && accepts(tx) then old(ledger).Broadcast(tx) else old(ledger)
    {
      if !Spendable(ledger, tx) {
        return Some(InputsMissingOrSpent);
      }
      if !accepts(tx) {
        return Some(SubmitFailed);
      }
      ledger := ledger.Broadcast(tx);
      if loses(tx) {
        return Some(SubmitFailed);
      }
      return None;
    }
  }

  method RemoveUnconfirmedUtxo(utxos: seq<Utxo>) returns (confirmed: seq<Utxo>)
    ensures confirmed == ConfirmedOnly(utxos)
  {
    confirmed := [];
    for i := 0 to |utxos|
      invariant confirmed == ConfirmedOnly(utxos[..i])
    {
      assert DropLast(utxos[..i + 1]) == utxos[..i];
      if utxos[i].status.Confirmed? {
        confirmed := confirmed + [utxos[i]];
      }
    }
    assert utxos[..|utxos|] == utxos;
  }

  /** As the builder leaves it: default sequences, nothing signed. */
  ghost predicate Fresh(p: Params, tx: Tx) {
    forall i :: 0 <= i < |tx.ins| ==> tx.ins[i] == TxIn(tx.ins[i].prev, p.rbfSequence, Unsigned)
  }

  /** A simple builder that meets the contract the wallet relies on: it adds wallet outputs
      until the fee is covered and returns the rest as change when that is worth an output. */
  method BuildRbfTransaction(p: Params, rate: Pos, d: Rbf, pool: seq<Utxo>) returns (r: Result<Tx>)
    ensures r.Err? ==> r.error == BuildFailed && !CanBuild(p, rate, d, pool)
    ensures r.Ok? ==> Builds(p, rate, d, pool, r.value)
    ensures r.Ok? ==> Fresh(p, r.value)
  {
    if exists o :: o in d.recipients && o.amount < 0 {
      return Err(BuildFailed);
    }
    for k := 0 to |pool| + 1
      invariant forall j :: 0 <= j < k ==> !PaysWith(p, rate, d, pool, j)
    {
      var used := d.vin + pool[..k];
      var ins := seq(|used|, i requires 0 <= i < |used| => TxIn(used[i].op, p.rbfSequence, Unsigned));
      var plain := Tx(ins, d.recipients);
      var surplus := SumUtxos(used) - SumOuts(d.recipients);
      FeeForIs(rate, VSize(p, d, plain));
      if surplus >= rate * VSize(p, d, plain) {
        assert Prevs(ins) == Ops(used);
        var probe := Tx(ins, d.recipients + [TxOut(p.Home(), 0)]);
        var change := surplus - rate * VSize(p, d, probe);
        var full := Tx(ins, d.recipients + [TxOut(p.Home(), change)]);
        assert DropLast(full.outs) == d.recipients;
        FeeForIs(rate, VSize(p, d, full));
        if change >= DUST && surplus - change >= rate * VSize(p, d, full) {
          return Ok(full);
        }
        return Ok(plain);
      }
    }
    return Err(BuildFailed);
  }

  // ---------------------------------------------------------------- collecting the inputs

  /** Adds previous outputs to the signer's table. */
  method AddPrevOuts(fetcher: map<OutPoint, int>, ghost known: seq<Utxo>, us: seq<Utxo>) returns (f: map<OutPoint, int>)
    requires fetcher == Amounts(known)
    ensures f == Amounts(known + us)
  {
    f := fetcher;
    assert known + us[..0] == known;
    for i := 0 to |us|
      invariant f == Amounts(known + us[..i])
    {
      assert DropLast(known + us[..i + 1]) == known + us[..i];
      f := f[us[i].op := us[i].amount];
    }
    assert us[..|us|] == us;
  }

  /** The marking loop shared by redeems and refunds; `extras` takes the secret of a redeem or the
      timelock of a refund. */
  method MarkInputs<V>(utxos: seq<Utxo>, t: SigType, script: Script, v: V, ghost known: seq<Utxo>,
                       fetcher: map<OutPoint, int>, types: Table<SigType>, scripts: Table<Script>, extras: Table<V>)
    returns (f: map<OutPoint, int>)
    requires fetcher == Amounts(known)
    requires (types as object) != scripts && (types as object) != extras && (scripts as object) != extras
    modifies types, scripts, extras
    ensures f == Amounts(known + utxos)
    ensures types.m == old(types.m) + Mark(utxos, t)
    ensures scripts.m == old(scripts.m) + Mark(utxos, script)
    ensures extras.m == old(extras.m) + Mark(utxos, v)
  {
    f := fetcher;
    assert known + utxos[..0] == known;
    for i := 0 to |utxos|
      invariant f == Amounts(known + utxos[..i])
      invariant types.m == old(types.m) + Mark(utxos[..i], t)
      invariant scripts.m == old(scripts.m) + Mark(utxos[..i], script)
      invariant extras.m == old(extras.m) + Mark(utxos[..i], v)
    {
      assert DropLast(known + utxos[..i + 1]) == known + utxos[..i];
      MarkStep(old(types.m), utxos, i, t);
      MarkStep(old(scripts.m), utxos, i, script);
      MarkStep(old(extras.m), utxos, i, v);
      f := f[utxos[i].op := utxos[i].amount];
      types.Set(utxos[i].op, t);
      scripts.Set(utxos[i].op, script);
      extras.Set(utxos[i].op, v);
    }
    assert utxos[..|utxos|] == utxos;
  }

  /** Marks the outputs of a swap as redeeming and appends them to the raw inputs. */
  method AddRedeem(p: Params, r: OptionRBF, fetcher: map<OutPoint, int>, ghost known: seq<Utxo>, x: Gathered)
    returns (f: map<OutPoint, int>, r': OptionRBF)
    requires r.Writable() && fetcher == Amounts(known) && x.item.action == Redeem
    modifies r.Repr()
    ensures f == Amounts(known + x.utxos)
    ensures r'.Writable() && (forall o :: o in r'.Repr() ==> o in r.Repr() || fresh(o))
    ensures r'.View() == AddItem(p, old(r.View()), x)
  {
    hide Amounts, Mark;
    f := MarkInputs(x.utxos, RedeemSig, x.item.swap.LockScript(), x.item.secret, known, fetcher,
                    r.sigType, r.sigScript, r.sigSecret);
    var vin := Append(r.vin, x.utxos);
    r' := r.(vin := vin, segwitSize := r.segwitSize + |x.utxos| * p.redeemSize(|x.item.secret|));
    assert old(Elems(r.recipients)) + Pays(x) == old(Elems(r.recipients));
    assert old(Entries(r.sigSequence)) + SequencesOf(x) == old(Entries(r.sigSequence));
  }

  /** Marks the outputs of a swap as refunding and appends them to the raw inputs. */
  method AddRefund(p: Params, r: OptionRBF, fetcher: map<OutPoint, int>, ghost known: seq<Utxo>, x: Gathered)
    returns (f: map<OutPoint, int>, r': OptionRBF)
    requires r.Writable() && fetcher == Amounts(known) && x.item.action == Refund
    modifies r.Repr()
    ensures f == Amounts(known + x.utxos)
    ensures r'.Writable() && (forall o :: o in r'.Repr() ==> o in r.Repr() || fresh(o))
    ensures r'.View() == AddItem(p, old(r.View()), x)
  {
    hide Amounts, Mark;
    f := MarkInputs(x.utxos, RefundSig, x.item.swap.LockScript(), Uint32(x.item.swap.waitBlock), known, fetcher,
                    r.sigType, r.sigScript, r.sigSequence);
    var vin := Append(r.vin, x.utxos);
    r' := r.(vin := vin, segwitSize := r.segwitSize + |x.utxos| * p.refundSize);
    assert old(Elems(r.recipients)) + Pays(x) == old(Elems(r.recipients));
    assert old(Entries(r.sigSecret)) + SecretsOf(x) == old(Entries(r.sigSecret));
  }

  method AddInitiate(p: Params, r: OptionRBF, x: Gathered) returns (r': OptionRBF)
    requires r.Writable() && x.item.action == Initiate && x.utxos == []
    modifies r.Repr()
    ensures r'.Writable() && (forall o :: o in r'.Repr() ==> o in r.Repr() || fresh(o))
    ensures r'.View() == AddItem(p, old(r.View()), x)
  {
    var recipients := Append(r.recipients, [TxOut(x.item.swap.LockAddress(), x.item.swap.amount)]);
    r' := r.(recipients := recipients);
    AddNoInputs(p, old(r.View()), x);
  }

  /** Adds every new action to the inputs and outputs. */
  method GatherActions(p: Params, client: Indexer, actions: seq<ActionItem>, r: OptionRBF,
                       fetcher: map<OutPoint, int>, ghost known: seq<Utxo>)
    returns (err: Option<Error>, f: map<OutPoint, int>, r': OptionRBF, ghost g: seq<Gathered>)
    requires r.Writable() && client !in r.Repr() && fetcher == Amounts(known)
    modifies r.Repr()
    ensures Gather(p, client.views, actions) == if err.None? then Ok(g) else Err(err.value)
    ensures r'.Writable() && (forall o :: o in r'.Repr() ==> o in r.Repr() || fresh(o))
    ensures err.None? ==> r'.View() == Extend(p, old(r.View()), g) && f == Amounts(known + RawInputs(g))
  {
    hide Extend, Amounts, GatherOne, RawInputs, OptionRBF.View, OptionRBF.Writable, OptionRBF.Repr;
    err, f, r', g := None, fetcher, r, [];
    ghost var start := r.View();
    ExtendNothing(p, start, known);
    for i := 0 to |actions|
      invariant err.None? && Gather(p, client.views, actions[..i]) == Ok(g)
      invariant r'.Writable() && (forall o :: o in r'.Repr() ==> o in r.Repr() || fresh(o)) && client !in r'.Repr()
      invariant r'.View() == Extend(p, start, g) && f == Amounts(known + RawInputs(g))
    {
      assert DropLast(actions[..i + 1]) == actions[..i];
      var x: Gathered;
      err, f, r', x := GatherNext(p, client, actions[i], r', f, known, start, g);
      if err.Some? {
        GatherPrefixError(p, client.views, actions, i + 1);
        return;
      }
      g := g + [x];
    }
    assert actions[..|actions|] == actions;
  }

  /** Fetches what one action needs and adds it. */
  method GatherNext(p: Params, client: Indexer, a: ActionItem, r: OptionRBF, fetcher: map<OutPoint, int>,
                    ghost known: seq<Utxo>, ghost start: Rbf, ghost g: seq<Gathered>)
    returns (err: Option<Error>, f: map<OutPoint, int>, r': OptionRBF, x: Gathered)
    requires r.Writable() && client !in r.Repr()
    requires r.View() == Extend(p, start, g) && fetcher == Amounts(known + RawInputs(g))
    modifies r.Repr()
    ensures GatherOne(p, client.views, a) == if err.None? then Ok(x) else Err(err.value)
    ensures r'.Writable() && (forall o :: o in r'.Repr() ==> o in r.Repr() || fresh(o))
    ensures err.None? ==> r'.View() == Extend(p, start, g + [x]) && f == Amounts(known + RawInputs(g + [x]))
  {
    hide Extend, Amounts, GatherOne, RawInputs;
    f, r' := fetcher, r;
    err, x := FetchAction(p, client, a);
    if err.None? {
      f, r' := AddAction(p, r, fetcher, known, start, g, x);
    }
  }

  method AddAction(p: Params, r: OptionRBF, fetcher: map<OutPoint, int>, ghost known: seq<Utxo>, ghost start: Rbf,
                   ghost g: seq<Gathered>, x: Gathered)
    returns (f: map<OutPoint, int>, r': OptionRBF)
    requires r.Writable() && r.View() == Extend(p, start, g) && fetcher == Amounts(known + RawInputs(g))
    requires x.item.action == Initiate ==> x.utxos == []
    requires !x.item.action.OtherAction?
    modifies r.Repr()
    ensures r'.Writable() && (forall o :: o in r'.Repr() ==> o in r.Repr() || fresh(o))
    ensures r'.View() == Extend(p, start, g + [x]) && f == Amounts(known + RawInputs(g + [x]))
  {
    hide Extend, AddItem, Amounts, OptionRBF.View, OptionRBF.Writable, OptionRBF.Repr;
    ExtendOne(p, start, g, x);
    assert known + RawInputs(g + [x]) == (known + RawInputs(g)) + x.utxos by { PlanOne(p, g, x); }
    match x.item.action {
      case Initiate =>
        f := fetcher;
        r' := AddInitiate(p, r, x);
        assert (known + RawInputs(g)) + x.utxos == known + RawInputs(g);
      case Redeem => f, r' := AddRedeem(p, r, fetcher, known + RawInputs(g), x);
      case Refund => f, r' := AddRefund(p, r, fetcher, known + RawInputs(g), x);
    }
  }

  method FetchAction(p: Params, client: Indexer, a: ActionItem) returns (err: Option<Error>, x: Gathered)
    ensures GatherOne(p, client.views, a) == if err.None? then Ok(x) else Err(err.value)
    ensures err.None? ==> !x.item.action.OtherAction? && (x.item.action == Initiate ==> x.utxos == [])
  {
    err, x := None, Gathered(a, []);
    if a.swap.network != p.network {
      return Some(WrongNetwork), x;
    }
    match a.action {
      case Initiate =>
      case OtherAction(_) => err := Some(UnknownAction);
      case _ =>
        var r := client.GetUTXOs(a.swap.LockAddress());
        if r.Err? {
          return Some(r.error), x;
        }
        var utxos := RemoveUnconfirmedUtxo(r.value);
        if |utxos| == 0 {
          return Some(InputsMissingOrSpent), x;
        }
        x := Gathered(a, utxos);
    }
  }

  lemma {:induction false} AddNoInputs(p: Params, r: Rbf, x: Gathered)
    requires x.item.action == Initiate && x.utxos == []
    ensures AddItem(p, r, x) == r.(recipients := r.recipients + Pays(x))
  {
    var z := AddItem(p, r, x);
    assert z.vin == r.vin && z.sigType == r.sigType && z.sigScript == r.sigScript;
    assert z.sigSecret == r.sigSecret && z.sigSequence == r.sigSequence;
  }

  lemma {:induction false} ExtendNothing(p: Params, r: Rbf, known: seq<Utxo>)
    ensures Extend(p, r, []) == r && known + RawInputs([]) == known
  {
    var z := Extend(p, r, []);
    assert z.vin == r.vin && z.recipients == r.recipients && z.sigType == r.sigType;
    assert z.sigScript == r.sigScript && z.sigSecret == r.sigSecret && z.sigSequence == r.sigSequence;
  }

  // ---------------------------------------------------------------- building and signing

  /** Raises the rate by one until the fee pays for the replaced transaction and for relaying
      this one. `limit` bounds what the inputs can ever pay, so the search cannot go on. */
  method AdjustFee(p: Params, d: Rbf, pool: seq<Utxo>, amounts: map<OutPoint, int>, prevFee: int, start: Pos, first: Tx)
    returns (err: Option<Error>, tx: Tx, rate: Pos)
    requires Builds(p, start, d, pool, first) && Fresh(p, first)
    ensures err.Some? ==> err.value == BuildFailed && start < rate && !CanBuild(p, rate, d, pool)
    ensures err.None? ==> Builds(p, rate, d, pool, tx) && Fresh(p, tx) && start <= rate
    ensures forall q :: start <= q < rate ==> FallsShort(p, q, d, pool, amounts, prevFee)
    ensures err.None? ==> TotalFee(amounts, tx) >= prevFee + FeeFor(p.minRelayFee, VSize(p, d, tx))
    ensures FeesAgree(d, pool, amounts) && prevFee >= 0 ==> rate <= Max(start, prevFee + p.minRelayFee)
  {
    hide Builds, FallsShort, TotalFee, FeesAgree, Wealth, Fresh;
    err, tx, rate := None, first, start;
    RateBound(p, rate, d, pool, tx);
    while true
      invariant Builds(p, rate, d, pool, tx) && Fresh(p, tx) && start <= rate <= Wealth(d.vin) + Wealth(pool)
      invariant FeesAgree(d, pool, amounts) && prevFee >= 0 ==> rate <= Max(start, prevFee + p.minRelayFee)
      invariant forall q :: start <= q < rate ==> FallsShort(p, q, d, pool, amounts, prevFee)
      decreases Wealth(d.vin) + Wealth(pool) - rate
    {
      var vsize := VSize(p, d, tx);
      FeeForIs(p.minRelayFee, vsize);
      if TotalFee(amounts, tx) >= prevFee + vsize * p.minRelayFee {
        return;
      }
      if FeesAgree(d, pool, amounts) && prevFee >= 0 {
        EnoughRate(p, rate, d, pool, amounts, tx, prevFee);
      }
      ShortCandidate(p, rate, d, pool, amounts, prevFee, tx);
      rate := rate + 1;
      var b := BuildRbfTransaction(p, rate, d, pool);
      if b.Err? {
        return Some(b.error), tx, rate;
      }
      tx := b.value;
      RateBound(p, rate, d, pool, tx);
    }
  }

  lemma {:induction false} ShortCandidate(p: Params, rate: int, d: Rbf, pool: seq<Utxo>,
                                          amounts: map<OutPoint, int>, prevFee: int, tx: Tx)
    requires Builds(p, rate, d, pool, tx) && TotalFee(amounts, tx) < prevFee + FeeFor(p.minRelayFee, VSize(p, d, tx))
    ensures FallsShort(p, rate, d, pool, amounts, prevFee)
  {
    hide Builds, TotalFee;
  }

  lemma {:induction false} WealthBounds(us: seq<Utxo>, k: nat)
    requires k <= |us|
    ensures SumUtxos(us[..k]) <= Wealth(us)
  {
    if us == [] {
    } else {
      if k == |us| {
        assert us[..k] == us;
        WealthBounds(DropLast(us), k - 1);
        assert DropLast(us)[..k - 1] == DropLast(us);
      } else {
        WealthBounds(DropLast(us), k);
        assert DropLast(us)[..k] == us[..k];
      }
    }
  }

  /** A transaction built at a rate pays at least that much, so its inputs are worth it. */
  lemma {:induction false} RateBound(p: Params, rate: Pos, d: Rbf, pool: seq<Utxo>, tx: Tx)
    requires Builds(p, rate, d, pool, tx)
    ensures rate <= Wealth(d.vin) + Wealth(pool)
  {
    var k := |tx.ins| - |d.vin|;
    SumUtxosConcat(d.vin, pool[..k]);
    WealthBounds(d.vin, |d.vin|);
    assert d.vin[..|d.vin|] == d.vin;
    WealthBounds(pool, k);
    OutsNotNegative(tx.outs);
    FeeForIs(rate, VSize(p, d, tx));
    TimesPositive(rate, VSize(p, d, tx));
  }

  /** Whether one of the first transaction's inputs is spent again. */
  method HasFirstInput(firstInputs: seq<Utxo>, tx: Tx) returns (found: bool)
    ensures found <==> exists i :: 0 <= i < |firstInputs| && Spends(tx, firstInputs[i].op)
  {
    for i := 0 to |firstInputs|
      invariant forall k :: 0 <= k < i ==> !Spends(tx, firstInputs[k].op)
    {
      for j := 0 to |tx.ins|
        invariant forall k :: 0 <= k < j ==> tx.ins[k].prev != firstInputs[i].op
      {
        if firstInputs[i].op == tx.ins[j].prev {
          assert Spends(tx, firstInputs[i].op);
          return true;
        }
      }
    }
    return false;
  }

  function SequenceFor(p: Params, d: Rbf, op: OutPoint): int {
    if TypeOf(d, op) == RefundSig && op in d.sigSequence then d.sigSequence[op] else p.rbfSequence
  }

  /** Sets the sequence of every refund input, in place. */
  method SetSequences(p: Params, d: Rbf, ins: array<TxIn>) returns (err: Option<Error>)
    requires forall k :: 0 <= k < ins.Length ==> ins[k].sequence == p.rbfSequence
    modifies ins
    ensures err.None? ==> forall k :: 0 <= k < ins.Length ==>
            ins[k] == old(ins[k]).(sequence := SequenceFor(p, d, old(ins[k].prev)))
    ensures err.None? ==> forall k :: 0 <= k < ins.Length && TypeOf(d, ins[k].prev) == RefundSig ==>
            ins[k].prev in d.sigSequence
    ensures err.Some? ==> err.value == MissingSequence
    ensures err.Some? ==> exists k :: 0 <= k < ins.Length && !HasPlan(d, old(ins[k].prev))
  {
    for i := 0 to ins.Length
      invariant forall k :: i <= k < ins.Length ==> ins[k] == old(ins[k])
      invariant forall k :: 0 <= k < i ==> ins[k] == old(ins[k]).(sequence := SequenceFor(p, d, old(ins[k].prev)))
      invariant forall k :: 0 <= k < i && TypeOf(d, ins[k].prev) == RefundSig ==> ins[k].prev in d.sigSequence
    {
      var key := ins[i].prev;
      if TypeOf(d, key) == RefundSig {
        if key !in d.sigSequence {
          assert !HasPlan(d, old(ins[i].prev));
          return Some(MissingSequence);
        }
        ins[i] := ins[i].(sequence := d.sigSequence[key]);
      }
    }
    return None;
  }

  /** The witness of one input, by its type. */
  method Unlock(p: Params, d: Rbf, amounts: map<OutPoint, int>, key: OutPoint) returns (err: Option<Error>, w: Witness)
    requires TypeOf(d, key) == RefundSig ==> key in d.sigSequence
    ensures err.None? <==> HasPlan(d, key)
    ensures err.None? ==> w == SignedInput(p, d, amounts, key).unlock
    ensures err.Some? ==> err.value in {MissingScript, MissingSecret}
  {
    var value := AmountOf(amounts, key);
    match TypeOf(d, key) {
      case RedeemSig =>
        if key !in d.sigScript {
          return Some(MissingScript), Unsigned;
        }
        if key !in d.sigSecret {
          return Some(MissingSecret), Unsigned;
        }
        return None, RedeemWitness(d.sigScript[key], d.sigSecret[key], value);
      case RefundSig =>
        if key !in d.sigScript {
          return Some(MissingScript), Unsigned;
        }
        return None, RefundWitness(d.sigScript[key], value);
      case _ =>
        return None, KeyWitness(value);
    }
  }

  lemma {:induction false} SignedParts(p: Params, d: Rbf, amounts: map<OutPoint, int>, x: TxIn)
    requires HasPlan(d, x.prev) && x.sequence == SequenceFor(p, d, x.prev)
    requires x.unlock == SignedInput(p, d, amounts, x.prev).unlock
    ensures x == SignedInput(p, d, amounts, x.prev)
  {
  }

  /** Sets the sequence of every refund input, then signs every input by its type. */
  method Sign(p: Params, d: Rbf, amounts: map<OutPoint, int>, tx: Tx) returns (err: Option<Error>, signed: Tx)
    requires Fresh(p, tx)
    ensures err.None? ==> SignedBy(p, d, amounts, signed)
    ensures Prevs(signed.ins) == Prevs(tx.ins) && signed.outs == tx.outs
    ensures err.Some? ==> err.value in {MissingSequence, MissingScript, MissingSecret}
    ensures err.Some? <==> exists i :: 0 <= i < |tx.ins| && !HasPlan(d, tx.ins[i].prev)
  {
    hide SignedInput, HasPlan, TypeOf, SequenceFor;
    var n := |tx.ins|;
    var ins := new TxIn[n](i requires 0 <= i < n => tx.ins[i]);
    err := SetSequences(p, d, ins);
    if err.Some? {
      return err, tx;
    }
    for i := 0 to n
      invariant forall k :: 0 <= k < n ==> ins[k].prev == tx.ins[k].prev
      invariant forall k :: i <= k < n ==> ins[k].sequence == SequenceFor(p, d, ins[k].prev)
      invariant forall k :: i <= k < n && TypeOf(d, ins[k].prev) == RefundSig ==> ins[k].prev in d.sigSequence
      invariant forall k :: 0 <= k < i ==> HasPlan(d, ins[k].prev) && ins[k] == SignedInput(p, d, amounts, ins[k].prev)
    {
      var w;
      err, w := Unlock(p, d, amounts, ins[i].prev);
      if err.Some? {
        assert !HasPlan(d, tx.ins[i].prev);
        return err, tx;
      }
      ins[i] := ins[i].(unlock := w);
      SignedParts(p, d, amounts, ins[i]);
    }
    signed := Tx(ins[..], tx.outs);
    return None, signed;
  }

  /** The inputs of a transaction as recorded outputs. */
  method ListInputs(amounts: map<OutPoint, int>, tx: Tx) returns (us: seq<Utxo>)
    ensures us == InputsOf(amounts, tx)
  {
    us := [];
    for i := 0 to |tx.ins|
      invariant us == InputsOf(amounts, tx)[..i]
    {
      us := us + [Utxo(tx.ins[i].prev, AmountOf(amounts, tx.ins[i].prev), NoStatus)];
    }
  }

  /** Signing changes neither what the builder promised nor the fee. */
  lemma {:induction false} SigningKeeps(p: Params, rate: Pos, d: Rbf, pool: seq<Utxo>, amounts: map<OutPoint, int>,
                                        tx: Tx, signed: Tx)
    requires Builds(p, rate, d, pool, tx)
    requires Prevs(signed.ins) == Prevs(tx.ins) && signed.outs == tx.outs
    ensures Builds(p, rate, d, pool, signed)
    ensures TotalFee(amounts, signed) == TotalFee(amounts, tx) && VSize(p, d, signed) == VSize(p, d, tx)
  {
    assert |Prevs(signed.ins)| == |signed.ins| && |Prevs(tx.ins)| == |tx.ins|;
    SumPrevsSame(amounts, signed.ins, tx.ins);
  }

  lemma {:induction false} SumPrevsSame(m: map<OutPoint, int>, a: seq<TxIn>, b: seq<TxIn>)
    requires Prevs(a) == Prevs(b)
    ensures SumPrevs(m, a) == SumPrevs(m, b)
  {
    assert |a| == |Prevs(a)| == |Prevs(b)| == |b|;
    if a == [] {
    } else {
      forall i | 0 <= i < |a| ensures a[i].prev == b[i].prev {
        assert Prevs(a)[i] == Prevs(b)[i];
      }
      assert Prevs(DropLast(a)) == Prevs(DropLast(b));
      SumPrevsSame(m, DropLast(a), DropLast(b));
    }
  }

  // ---------------------------------------------------------------- the whole call

  /** Submits a new batch transaction, or replaces the live one by one with the new actions
      added. `est` is the fee estimator's answer, and `sent` what the node took. Nothing the caller's
      options reach changes; on an error they are what is returned, and on success the new options
      share no memory with them, unless the caller's list of wallet outputs is kept. */
  method ExecuteRbf(p: Params, client: Indexer, actions: seq<ActionItem>, rbf: OptionRBF, est: Option<Pos>)
    returns (tx: Option<Tx>, out: OptionRBF, err: Option<Error>,
             ghost g: seq<Gathered>, ghost pool: seq<Utxo>, ghost rate: int, ghost sent: Option<Tx>)
    modifies client`ledger
    ensures Untouched(rbf)
    ensures err.Some? ==> out == rbf && tx == None
    ensures err.None? ==> tx == sent && sent.Some? && Inputs(p, client.views, actions, old(rbf.View()), est).Ok?
    ensures err.None? && !KeepsPool(old(rbf.View()), g) ==> fresh(out.Repr())
    ensures err.None? && KeepsPool(old(rbf.View()), g) ==> !fresh(out.Repr())
    ensures err.None? ==> fresh(out.Repr() - Obj(rbf.firstUtxos.mem))
    ensures sent == None ==> client.ledger == old(client.ledger)
    ensures match Inputs(p, client.views, actions, old(rbf.View()), est)
            case Err(e) => err == Some(e) && sent == None
            case Ok(found) =>
              && (g, pool) == found
              && Answer(p, old(client.Peer()), client.ledger, old(rbf.View()), g, pool, est.value, sent, rate,
                out.View(), err)
    ensures forall e :: StopsWith(p, client.views, actions, old(rbf.View()), est, e) ==> err == Some(e) && sent == None
    ensures sent.Some? ==>
              && Spendable(old(client.ledger), sent.value) && client.accepts(sent.value)
              && client.ledger == old(client.ledger).Broadcast(sent.value)
              && err == if client.loses(sent.value) then Some(SubmitFailed) else None
    ensures err == Some(SubmitFailed) && sent == None ==>
              est.Some? && AgainstPolicy(p, old(client.Peer()), old(rbf.View()), g, pool, est.value)
    ensures err == Some(BuildFailed) ==> est.Some? && TooExpensive(p, old(rbf.View()), g, pool, est.value)
    ensures err.Some? && err.value in {MissingSequence, MissingScript, MissingSecret} ==>
              CannotSign(p, old(rbf.View()), g, pool)
    ensures err == Some(InputsMissingOrSpent) ==> sent == None
    ensures err == Some(InputsMissingOrSpent) ==>
              || (exists i :: FailsFirst(p, client.views, actions, i, InputsMissingOrSpent))
              || (AllGather(p, client.views, actions) && est.Some?
                  && (|| RefusedByNode(p, old(client.ledger), old(rbf.View()), g, pool, est.value)
                      || (!old(rbf.View()).IsNil() && LostFirstInputs(p, old(rbf.View()), g, pool))))
    ensures Inputs(p, client.views, actions, old(rbf.View()), est).Ok? && rbf.fee >= 0
            && FeesAgree(Extend(p, old(rbf.View()), g), pool, SignerTable(old(rbf.View()), g, pool)) ==>
              rate <= Max(StartRate(p, old(rbf.View()), est.value), rbf.fee + p.minRelayFee)
  {
    hide Answer, Tried, FeesAgree, SignerTable, Extend, Inputs, KeepsPool, Elems, Entries, Untouched, StopsWith,
      FailsFirst, AllGather, RefusedByNode, LostFirstInputs, AgainstPolicy, TooExpensive, CannotSign, Spendable,
      OptionRBF.View;
    ghost var r, node := rbf.View(), client.Peer();
    out := rbf;
    var next;
    err, tx, next, g, pool, rate, sent := Attempt(p, client, actions, rbf, est);
    PartsUntouched(rbf);
    InputsExactly(p, client.views, actions, r, est);
    AnswerMeans(p, node, client.ledger, client.views, actions, r, est, g, pool, sent, rate, next.View(), err);
    if err == Some(InputsMissingOrSpent) {
      MissingMeans(p, node, client.ledger, client.views, actions, r, est, g, pool, sent, rate, next.View(), err);
    }
    if err.None? {
      out := next;
    } else {
      ErrorIgnoresNext(p, node, client.ledger, r, g, pool, est, sent, rate, next.View(), err);
    }
  }

  /** What the other outcomes mean. */
  lemma {:induction false} AnswerMeans(p: Params, node: Node, after: Ledger, views: Views, actions: seq<ActionItem>,
                                       r: Rbf, est: Option<Pos>, g: seq<Gathered>, pool: seq<Utxo>,
                                       sent: Option<Tx>, rate: int, next: Rbf, err: Option<Error>)
    requires match Inputs(p, views, actions, r, est)
             case Err(e) => err == Some(e) && sent == None
             case Ok(found) =>
               (g, pool) == found && Answer(p, node, after, r, g, pool, est.value, sent, rate, next, err)
    ensures sent.Some? ==>
              && Spendable(node.ledger, sent.value) && node.accepts(sent.value)
              && after == node.ledger.Broadcast(sent.value)
              && err == if node.loses(sent.value) then Some(SubmitFailed) else None
    ensures err == Some(SubmitFailed) && sent == None ==> est.Some? && AgainstPolicy(p, node, r, g, pool, est.value)
    ensures err == Some(BuildFailed) ==> est.Some? && TooExpensive(p, r, g, pool, est.value)
    ensures err.Some? && err.value in {MissingSequence, MissingScript, MissingSecret} ==> CannotSign(p, r, g, pool)
  {
    InputsExactly(p, views, actions, r, est);
    hide Tried, Built, Accepted, RefusedByNode, LostFirstInputs, AgainstPolicy, TooExpensive, CannotSign, Spendable,
      Inputs, AllGather;
  }

  /** What "missing or spent" can mean. */
  lemma {:induction false} MissingMeans(p: Params, node: Node, after: Ledger, views: Views, actions: seq<ActionItem>,
                                        r: Rbf, est: Option<Pos>, g: seq<Gathered>, pool: seq<Utxo>,
                                        sent: Option<Tx>, rate: int, next: Rbf, err: Option<Error>)
    requires match Inputs(p, views, actions, r, est)
             case Err(e) => err == Some(e) && sent == None
             case Ok(found) =>
               (g, pool) == found && Answer(p, node, after, r, g, pool, est.value, sent, rate, next, err)
    requires err == Some(InputsMissingOrSpent)
    ensures sent == None
    ensures || (exists i :: FailsFirst(p, views, actions, i, InputsMissingOrSpent))
            || (AllGather(p, views, actions) && est.Some?
                && (|| RefusedByNode(p, node.ledger, r, g, pool, est.value)
                    || (!r.IsNil() && LostFirstInputs(p, r, g, pool))))
  {
    InputsExactly(p, views, actions, r, est);
    GatherExactly(p, views, actions);
    hide Gather, FailsFirst, AllGather, Tried, Built, Accepted, RefusedByNode, LostFirstInputs, AgainstPolicy,
      TooExpensive, CannotSign, Spendable;
  }

  lemma {:induction false} ErrorIgnoresNext(p: Params, node: Node, after: Ledger, r: Rbf, g: seq<Gathered>,
                                            pool: seq<Utxo>, est: Option<Pos>, sent: Option<Tx>, rate: int,
                                            next: Rbf, err: Option<Error>)
    requires err.Some?
    ensures est.Some? && Answer(p, node, after, r, g, pool, est.value, sent, rate, next, err) ==>
              forall next' :: Answer(p, node, after, r, g, pool, est.value, sent, rate, next', err)
  {
    hide Built, Tried, Unbuilt, Accepted, RefusedByNode, AgainstPolicy, Spendable;
  }

  /** Everything a call does, into options of its own. */
  method Attempt(p: Params, client: Indexer, actions: seq<ActionItem>, rbf: OptionRBF, est: Option<Pos>)
    returns (err: Option<Error>, tx: Option<Tx>, next: OptionRBF,
             ghost g: seq<Gathered>, ghost pool: seq<Utxo>, ghost rate: int, ghost sent: Option<Tx>)
    modifies client`ledger
    ensures if err.None? then tx == sent && sent.Some? else tx == None
    ensures err.None? ==> OwnsAll(next, rbf, KeepsPool(old(rbf.View()), g))
    ensures sent == None ==> client.ledger == old(client.ledger)
    ensures match Inputs(p, client.views, actions, old(rbf.View()), est)
            case Err(e) => err == Some(e) && sent == None
            case Ok(found) =>
              && (g, pool) == found
              && Answer(p, old(client.Peer()), client.ledger, old(rbf.View()), g, pool, est.value, sent, rate,
                next.View(), err)
    ensures Inputs(p, client.views, actions, old(rbf.View()), est).Ok? && rbf.fee >= 0
            && FeesAgree(Extend(p, old(rbf.View()), g), pool, SignerTable(old(rbf.View()), g, pool)) ==>
              rate <= Max(StartRate(p, old(rbf.View()), est.value), rbf.fee + p.minRelayFee)
  {
    hide Answer, Built, Tried, Unbuilt, FeesAgree, SignerTable, Extend, Inputs, RawInputs, Elems, Entries,
      OptionRBF.View, OptionRBF.Repr;
    tx, sent, rate := None, None, 0;
    ViewParts(rbf);
    var isNil := rbf.fee == 0 && rbf.firstInputs.len == 0;
    var fetcher, utxos;
    err, next, fetcher, utxos, g := Prepare(p, client, actions, rbf, est, isNil);
    pool := Elems(utxos);
    if err.Some? {
      return;
    }
    var start: Pos := est.value;
    if !isNil && start < rbf.feeRate + p.minRelayFee {
      start := rbf.feeRate + p.minRelayFee;
    }
    ViewParts(next);
    DraftInputs(p, rbf.View(), g);
    err, tx, next, rate, sent := Replace(p, client, rbf, next, utxos, fetcher, isNil, start, g, est.value);
  }

  lemma {:induction false} DraftInputs(p: Params, r: Rbf, g: seq<Gathered>)
    ensures Extend(p, r, g).vin == r.vin + RawInputs(g)
  {
  }

  /** Builds, signs, submits and records. */
  method Replace(p: Params, client: Indexer, rbf: OptionRBF, newRbf: OptionRBF, utxos: Slice<Utxo>,
                 fetcher: map<OutPoint, int>, isNil: bool, start: Pos, ghost g: seq<Gathered>, ghost est: int)
    returns (err: Option<Error>, tx: Option<Tx>, out: OptionRBF, ghost rate: int, ghost sent: Option<Tx>)
    requires newRbf.Writable() && utxos.mem != newRbf.vin.mem
    requires newRbf.View() == Extend(p, rbf.View(), g) && fetcher == SignerTable(rbf.View(), g, Elems(utxos))
    requires isNil == rbf.View().IsNil() && start == StartRate(p, rbf.View(), est)
    modifies client`ledger, newRbf.vin.mem
    ensures if err.None? then tx == sent && sent.Some? else tx == None
    ensures sent == None ==> client.ledger == old(client.ledger)
    ensures Answer(p, old(client.Peer()), client.ledger, old(rbf.View()), g, old(Elems(utxos)), est, sent, rate,
                   out.View(), err)
    ensures err.None? ==> Recorded(out, newRbf, utxos, isNil) && (newRbf.vin.len == 0 ==> utxos.mem != null)
    ensures rbf.fee >= 0 && FeesAgree(old(newRbf.View()), old(Elems(utxos)), fetcher) ==>
              rate <= Max(start, rbf.fee + p.minRelayFee)
  {
    hide Answer, Built, Tried, Unbuilt, FeesAgree, SignerTable, Extend, Elems, Entries;
    ghost var r, pool := rbf.View(), Elems(utxos);
    tx, out, sent := None, newRbf, None;
    var signed: Tx;
    var feeRate: Pos;
    err, signed, feeRate := BuildFrom(p, newRbf, utxos, fetcher, rbf, isNil, start, g, est);
    rate := feeRate;
    if err.Some? {
      UnbuiltAnswers(p, client.Peer(), r, g, pool, est, rate, err.value);
      return;
    }
    err, out, sent := SubmitAndRecord(p, client, newRbf, utxos, fetcher, isNil, signed, feeRate, r, g, est);
    if err.None? {
      tx := Some(signed);
    }
  }

  /** Building reaches no options. */
  method BuildFrom(p: Params, newRbf: OptionRBF, utxos: Slice<Utxo>, fetcher: map<OutPoint, int>, rbf: OptionRBF,
                   isNil: bool, start: Pos, ghost g: seq<Gathered>, ghost est: int)
    returns (err: Option<Error>, signed: Tx, rate: Pos)
    requires newRbf.View() == Extend(p, rbf.View(), g) && fetcher == SignerTable(rbf.View(), g, Elems(utxos))
    requires isNil == rbf.View().IsNil() && start == StartRate(p, rbf.View(), est)
    ensures newRbf.View() == old(newRbf.View()) && rbf.View() == old(rbf.View()) && Elems(utxos) == old(Elems(utxos))
    ensures if err.None? then Built(p, old(rbf.View()), g, Elems(utxos), est, signed, rate)
            else Unbuilt(p, old(rbf.View()), g, Elems(utxos), est, err.value)
    ensures Tried(p, old(rbf.View()), g, Elems(utxos), est, rate)
    ensures rbf.fee >= 0 && FeesAgree(newRbf.View(), Elems(utxos), fetcher) ==>
            rate <= Max(start, rbf.fee + p.minRelayFee)
  {
    hide Built, Tried, Unbuilt, FeesAgree, SignerTable, Extend;
    err, signed, rate := BuildSigned(p, newRbf.View(), Elems(utxos), fetcher, rbf.View(), isNil, start, g, est);
  }

  /** Submitting reaches no options. */
  method Submit(client: Indexer, tx: Tx, newRbf: OptionRBF, utxos: Slice<Utxo>)
    returns (err: Option<Error>, ghost sent: Option<Tx>)
    modifies client`ledger
    ensures sent == if Spendable(old(client.ledger), tx) && client.accepts(tx) then Some(tx) else None
    ensures client.ledger == if sent == None then old(client.ledger) else old(client.ledger).Broadcast(tx)
    ensures err == if !Spendable(old(client.ledger), tx) then Some(InputsMissingOrSpent)
                   else if !client.accepts(tx) || client.loses(tx) then Some(SubmitFailed)
                   else None
    ensures newRbf.View() == old(newRbf.View()) && Elems(utxos) == old(Elems(utxos))
  {
    hide Spendable;
    sent := if Spendable(client.ledger, tx) && client.accepts(tx) then Some(tx) else None;
    err := client.SubmitTx(tx);
  }

  /** Submits the transaction and, when the node says it took it, fills in the options. */
  method SubmitAndRecord(p: Params, client: Indexer, newRbf: OptionRBF, utxos: Slice<Utxo>,
                         fetcher: map<OutPoint, int>, isNil: bool, signed: Tx, rate: Pos, ghost r: Rbf,
                         ghost g: seq<Gathered>, ghost est: int)
    returns (err: Option<Error>, out: OptionRBF, ghost sent: Option<Tx>)
    requires newRbf.Writable() && utxos.mem != newRbf.vin.mem
    requires newRbf.View() == Extend(p, r, g) && fetcher == SignerTable(r, g, Elems(utxos)) && isNil == r.IsNil()
    requires Built(p, r, g, Elems(utxos), est, signed, rate) && Tried(p, r, g, Elems(utxos), est, rate)
    modifies client`ledger, newRbf.vin.mem
    ensures sent == None ==> client.ledger == old(client.ledger)
    ensures err.None? ==> sent == Some(signed)
    ensures Answer(p, old(client.Peer()), client.ledger, r, g, old(Elems(utxos)), est, sent, rate, out.View(), err)
    ensures err.None? ==> Recorded(out, newRbf, utxos, isNil) && (newRbf.vin.len == 0 ==> utxos.mem != null)
  {
    hide Built, Tried, SignerTable, Extend, Unbuilt, Spendable, Record, Answer;
    ghost var pool, node := Elems(utxos), client.Peer();
    BuiltWithin(p, r, g, pool, est, signed, rate);
    assert newRbf.vin.len == |Extend(p, r, g).vin|;
    hide OptionRBF.View, Elems;
    out := newRbf;
    err, sent := Submit(client, signed, newRbf, utxos);
    SubmitAnswers(p, node, client.ledger, r, g, pool, est, signed, rate, err);
    if err.None? {
      out := RecordTx(p, newRbf, fetcher, utxos, signed, rate, isNil);
    }
  }

  /** What the node's answer means for the call. */
  lemma {:induction false} SubmitAnswers(p: Params, node: Node, after: Ledger, r: Rbf, g: seq<Gathered>,
                                         pool: seq<Utxo>, est: int, tx: Tx, rate: int, err: Option<Error>)
    requires Built(p, r, g, pool, est, tx, rate) && Tried(p, r, g, pool, est, rate)
    requires |Extend(p, r, g).vin| == 0 ==> |tx.ins| <= |pool|
    requires err == if !Spendable(node.ledger, tx) then Some(InputsMissingOrSpent)
                    else if !node.accepts(tx) || node.loses(tx) then Some(SubmitFailed)
                    else None
    requires after == if Spendable(node.ledger, tx) && node.accepts(tx) then node.ledger.Broadcast(tx) else node.ledger
    ensures
      var sent := if Spendable(node.ledger, tx) && node.accepts(tx) then Some(tx) else None;
      var next' := Record(p, r.IsNil(), Extend(p, r, g), SignerTable(r, g, pool), pool, tx, rate);
      forall next :: (err.None? ==> next == next') ==> Answer(p, node, after, r, g, pool, est, sent, rate, next, err)
  {
    hide Built, Tried, SignerTable, Extend, Spendable, Record;
  }

  /** Copies the options and gathers the actions into the copy. */
  method Draft(p: Params, client: Indexer, actions: seq<ActionItem>, rbf: OptionRBF)
    returns (err: Option<Error>, newRbf: OptionRBF, fetcher: map<OutPoint, int>, ghost g: seq<Gathered>)
    ensures fresh(newRbf.Repr()) && newRbf.Writable()
    ensures rbf.View() == old(rbf.View())
    ensures Gather(p, client.views, actions) == if err.None? then Ok(g) else Err(err.value)
    ensures err.None? ==>
              && newRbf.View() == Extend(p, rbf.View(), g)
              && fetcher == Amounts(rbf.View().vin + RawInputs(g))
  {
    hide Gather, Extend, Amounts, RawInputs, OptionRBF.Repr;
    ghost var r := rbf.View();
    var known := Elems(rbf.vin);
    var copy := CopyRBF(rbf);
    NoAmounts(known);
    fetcher := AddPrevOuts(map[], [], known);
    err, fetcher, newRbf, g := GatherActions(p, client, actions, copy, fetcher, known);
  }

  /** Copies the options, gathers the actions and collects the wallet outputs. */
  method Prepare(p: Params, client: Indexer, actions: seq<ActionItem>, rbf: OptionRBF, est: Option<Pos>, isNil: bool)
    returns (err: Option<Error>, newRbf: OptionRBF, fetcher: map<OutPoint, int>, utxos: Slice<Utxo>,
             ghost g: seq<Gathered>)
    requires isNil == rbf.View().IsNil()
    ensures AllNew(newRbf) && newRbf.Writable() && newRbf.vin.mem !in rbf.Repr()
    ensures rbf.View() == old(rbf.View())
    ensures Inputs(p, client.views, actions, rbf.View(), est)
         == if err.None? then Ok((g, Elems(utxos))) else Err(err.value)
    ensures err.None? ==>
              && newRbf.View() == Extend(p, rbf.View(), g)
              && fetcher == SignerTable(rbf.View(), g, Elems(utxos))
    ensures err.None? ==> utxos.mem != newRbf.vin.mem
    ensures err.None? ==> if isNil then fresh(Obj(utxos.mem)) else utxos == rbf.firstUtxos
  {
    hide Gather, Extend, Amounts, RawInputs, Pool, Entries, OptionRBF.View, OptionRBF.Repr;
    utxos := RawSlice(null, 0, 0);
    err, newRbf, fetcher, g := Draft(p, client, actions, rbf);
    InRepr(newRbf);
    ReprIsOld(rbf, newRbf.vin.mem);
    if err.Some? {
      return;
    }
    if est.None? {
      err := Some(EstimatorDown);
      return;
    }
    err, utxos := FetchPool(p, client, rbf, isNil, newRbf);
    if err.Some? {
      return;
    }
    fetcher := TableOf(fetcher, rbf, RawInputs(g), utxos, newRbf);
  }

  /** The signer's table, with the wallet outputs added. */
  method TableOf(fetcher: map<OutPoint, int>, ghost rbf: OptionRBF, ghost raw: seq<Utxo>, utxos: Slice<Utxo>,
                 ghost newRbf: OptionRBF)
    returns (f: map<OutPoint, int>)
    requires fetcher == Amounts(rbf.View().vin + raw)
    ensures rbf.View() == old(rbf.View()) && newRbf.View() == old(newRbf.View()) && Elems(utxos) == old(Elems(utxos))
    ensures f == Amounts(rbf.View().vin + raw + Elems(utxos))
  {
    hide Amounts;
    f := AddPrevOuts(fetcher, rbf.View().vin + raw, Elems(utxos));
  }

  lemma {:induction false} NoAmounts(known: seq<Utxo>)
    ensures Amounts([]) == map[] && [] + known == known
  {
  }

  lemma {:induction false} BuiltWithin(p: Params, r: Rbf, g: seq<Gathered>, pool: seq<Utxo>, est: int, tx: Tx,
                                       rate: int)
    requires Built(p, r, g, pool, est, tx, rate) && rate > 0
    ensures Extend(p, r, g).vin == [] ==> 0 < |tx.ins| <= |pool|
    ensures Extend(p, r, g).vin == r.vin + RawInputs(g)
  {
    hide SignedBy, SignerTable, RawInputs, WitnessSize, Recipients, Types, Scripts, Secrets, Sequences, TotalFee;
    BuiltHasInput(p, rate, Extend(p, r, g), pool, tx);
  }

  /** Builds and adjusts the transaction, checks that it replaces the first one, signs it. */
  method BuildSigned(p: Params, d: Rbf, utxos: seq<Utxo>, fetcher: map<OutPoint, int>, r: Rbf, isNil: bool,
                     start: Pos, ghost g: seq<Gathered>, ghost est: int)
    returns (err: Option<Error>, signed: Tx, rate: Pos)
    requires d == Extend(p, r, g) && fetcher == SignerTable(r, g, utxos)
    requires isNil == r.IsNil() && start == StartRate(p, r, est)
    ensures if err.None? then Built(p, r, g, utxos, est, signed, rate) else Unbuilt(p, r, g, utxos, est, err.value)
    ensures Tried(p, r, g, utxos, est, rate)
    ensures r.fee >= 0 && FeesAgree(d, utxos, fetcher) ==> rate <= Max(start, r.fee + p.minRelayFee)
  {
    hide Builds, FallsShort, FeesAgree, Fresh, SignerTable, Extend, CanBuild, TotalFee, SignedBy, HasPlan, Unbuilt,
      Spends;
    var unsigned;
    err, unsigned, rate := BuildReplacement(p, d, utxos, fetcher, r, isNil, start);
    signed := unsigned;
    if err.Some? {
      CannotPay(p, r, g, utxos, est, rate);
      return;
    }
    if !isNil {
      var kept := HasFirstInput(r.firstInputs, unsigned);
      if !kept {
        LosesFirstInputs(p, r, g, utxos, est, rate, unsigned);
        err := Some(InputsMissingOrSpent);
        return;
      }
    }
    err, signed := Sign(p, d, fetcher, unsigned);
    if err.Some? {
      LacksData(p, r, g, utxos, est, rate, unsigned, err.value);
      return;
    }
    SigningKeeps(p, rate, d, utxos, fetcher, unsigned, signed);
  }

  lemma {:induction false} UnbuiltAnswers(p: Params, node: Node, r: Rbf, g: seq<Gathered>, pool: seq<Utxo>,
                                          est: int, rate: int, e: Error)
    requires Unbuilt(p, r, g, pool, est, e) && Tried(p, r, g, pool, est, rate)
    ensures forall next :: Answer(p, node, node.ledger, r, g, pool, est, None, rate, next, Some(e))
  {
    hide Unbuilt, Tried;
  }

  lemma {:induction false} CannotPay(p: Params, r: Rbf, g: seq<Gathered>, pool: seq<Utxo>, est: int, rate: int)
    requires Tried(p, r, g, pool, est, rate) && !CanBuild(p, rate, Extend(p, r, g), pool)
    ensures Unbuilt(p, r, g, pool, est, BuildFailed)
  {
    hide Tried, CanBuild, Extend;
  }

  lemma {:induction false} LosesFirstInputs(p: Params, r: Rbf, g: seq<Gathered>, pool: seq<Utxo>, est: int,
                                            rate: int, tx: Tx)
    requires !r.IsNil() && Builds(p, rate, Extend(p, r, g), pool, tx)
    requires !exists i :: 0 <= i < |r.firstInputs| && Spends(tx, r.firstInputs[i].op)
    ensures Unbuilt(p, r, g, pool, est, InputsMissingOrSpent)
  {
    hide Builds, Extend, Spends;
    assert KeepsNoFirstInput(r, tx);
  }

  lemma {:induction false} LacksData(p: Params, r: Rbf, g: seq<Gathered>, pool: seq<Utxo>, est: int, rate: int,
                                     tx: Tx, e: Error)
    requires Builds(p, rate, Extend(p, r, g), pool, tx) && e in {MissingSequence, MissingScript, MissingSecret}
    requires exists i :: 0 <= i < |tx.ins| && !HasPlan(Extend(p, r, g), tx.ins[i].prev)
    ensures Unbuilt(p, r, g, pool, est, e)
  {
    hide Builds, Extend, HasPlan;
    assert HasUnplanned(Extend(p, r, g), tx);
  }

  /** The wallet outputs to draw on. */
  method FetchPool(p: Params, client: Indexer, rbf: OptionRBF, isNil: bool, ghost newRbf: OptionRBF)
    returns (err: Option<Error>, utxos: Slice<Utxo>)
    requires isNil == rbf.View().IsNil()
    ensures rbf.View() == old(rbf.View()) && newRbf.View() == old(newRbf.View())
    ensures Pool(p, client.views, rbf.View()) == if err.None? then Ok(Elems(utxos)) else Err(err.value)
    ensures if isNil then fresh(Obj(utxos.mem)) else utxos == rbf.firstUtxos
  {
    hide ConfirmedOnly;
    err, utxos := None, rbf.firstUtxos;
    if isNil {
      err, utxos := FetchOwn(p, client);
    }
  }

  /** The wallet's confirmed outputs. */
  method FetchOwn(p: Params, client: Indexer) returns (err: Option<Error>, utxos: Slice<Utxo>)
    ensures fresh(Obj(utxos.mem))
    ensures if p.Home() in client.views then err == None && Elems(utxos) == ConfirmedOnly(client.views[p.Home()])
            else err == Some(IndexerDown)
  {
    var r := client.GetUTXOs(p.Home());
    if r.Err? {
      return Some(r.error), RawSlice(null, 0, 0);
    }
    var confirmed := RemoveUnconfirmedUtxo(r.value);
    utxos := MakeSlice(confirmed);
    err := None;
  }

  /** Builds, and for a replacement adjusts the fee. */
  method BuildReplacement(p: Params, d: Rbf, utxos: seq<Utxo>, fetcher: map<OutPoint, int>, r: Rbf, isNil: bool,
                          start: Pos)
    returns (err: Option<Error>, tx: Tx, rate: Pos)
    ensures err.Some? ==> err.value == BuildFailed && !CanBuild(p, rate, d, utxos)
    ensures start <= rate && (isNil ==> rate == start)
    ensures forall q :: start <= q < rate ==> FallsShort(p, q, d, utxos, fetcher, r.fee)
    ensures err.None? ==> Builds(p, rate, d, utxos, tx) && Fresh(p, tx)
    ensures err.None? && !isNil ==> TotalFee(fetcher, tx) >= r.fee + FeeFor(p.minRelayFee, VSize(p, d, tx))
    ensures r.fee >= 0 && FeesAgree(d, utxos, fetcher) ==> rate <= Max(start, r.fee + p.minRelayFee)
  {
    err, tx, rate := None, Tx([], []), start;
    var b := BuildRbfTransaction(p, start, d, utxos);
    if b.Err? {
      err := Some(b.error);
      return;
    }
    tx := b.value;
    if !isNil {
      err, tx, rate := AdjustFee(p, d, utxos, fetcher, r.fee, start, tx);
    }
  }

  /** The first transaction's inputs and the wallet outputs it was offered. */
  method KeepFirst(r: OptionRBF, inputs: seq<Utxo>, utxos: Slice<Utxo>) returns (out: OptionRBF)
    requires r.Writable() && utxos.mem != r.vin.mem
    ensures out == r.(firstInputs := out.firstInputs, firstUtxos := utxos) && out.Writable()
    ensures fresh(Obj(out.firstInputs.mem))
    ensures out.View() == r.View().(firstInputs := inputs, firstUtxos := Elems(utxos))
  {
    var firstInputs := MakeSlice(inputs);
    out := r.(firstInputs := firstInputs, firstUtxos := utxos);
  }

  /** Turns the inputs into raw inputs and drops as many from the wallet outputs. */
  method FreezeInputs(p: Params, r: OptionRBF, inputs: seq<Utxo>, utxos: Slice<Utxo>) returns (out: OptionRBF)
    requires r.Writable() && utxos.mem != r.vin.mem && r.vin.len == 0 && |inputs| <= utxos.len
    modifies r.vin.mem
    ensures out == r.(vin := out.vin, firstUtxos := Rest(utxos, |inputs|), segwitSize := |inputs| * p.keyWeight)
    ensures out.vin.mem == r.vin.mem || fresh(Obj(out.vin.mem))
    ensures out.View() == old(r.View()).(vin := inputs, firstUtxos := old(Elems(utxos))[|inputs|..],
                                         segwit := |inputs| * p.keyWeight)
  {
    var vin := Append(r.vin, inputs);
    assert Elems(vin) == inputs;
    assert Elems(utxos) == old(Elems(utxos));
    RestElems(utxos, |inputs|);
    out := r.(vin := vin, firstUtxos := Rest(utxos, |inputs|), segwitSize := |inputs| * p.keyWeight);
  }

  lemma {:induction false} RestElems(s: Slice<Utxo>, n: nat)
    requires n <= s.len
    ensures Elems(Rest(s, n)) == Elems(s)[n..]
  {
  }

  /** Fills in the options for the next transaction. */
  method RecordTx(p: Params, r: OptionRBF, fetcher: map<OutPoint, int>, utxos: Slice<Utxo>, tx: Tx, rate: int,
                  isNil: bool)
    returns (out: OptionRBF)
    requires r.Writable() && utxos.mem != r.vin.mem
    requires r.vin.len == 0 ==> |tx.ins| <= utxos.len
    modifies r.vin.mem
    ensures out.View() == Record(p, isNil, old(r.View()), fetcher, old(Elems(utxos)), tx, rate)
    ensures Recorded(out, r, utxos, isNil)
  {
    hide TotalFee, InputsOf, Elems, Entries;
    var inputs := ListInputs(fetcher, tx);
    assert |inputs| == |tx.ins| by { InputsLength(fetcher, tx); }
    out := r.(feeRate := rate, fee := TotalFee(fetcher, tx));
    if isNil {
      out := KeepFirst(out, inputs, utxos);
    }
    if out.vin.len == 0 {
      out := FreezeInputs(p, out, inputs, utxos);
    }
  }

  lemma {:induction false} InputsLength(amounts: map<OutPoint, int>, tx: Tx)
    ensures |InputsOf(amounts, tx)| == |tx.ins|
  {
  }
}
