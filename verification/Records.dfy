/** The stored record over whole runs: what it holds is exactly the plan of the actions it lists,
    and every transaction sent from it is signed as that plan says. */
module Records {
  import opened Bitcoin
  import opened Ledgers
  import opened RbfPlan
  import opened RbfChain
  import opened SignPlan
  import opened Orders
  import opened Protocol
  import opened Safety
  import opened SafetySteps

  /** The wallet redeems only swaps of others and refunds only its own. */
  ghost predicate RoleOk(p: Params, a: ActionItem) {
    && a.action in {Initiate, Redeem, Refund}
    && (a.action == Redeem ==> a.swap.initiator != p.key)
    && (a.action == Refund ==> a.swap.initiator == p.key)
  }

  /** Listed outputs exist at the address with their true amounts. */
  ghost predicate Owned(l: Ledger, us: seq<Utxo>, a: Address) {
    forall i :: 0 <= i < |us| ==> us[i].op in l.outs && l.outs[us[i].op] == TxOut(a, us[i].amount)
  }

  ghost predicate ItemOwned(l: Ledger, p: Params, x: Gathered) {
    && RoleOk(p, x.item)
    && (x.item.action == Initiate <==> x.utxos == [])
    && NoDup(Ops(x.utxos)) && Owned(l, x.utxos, x.item.swap.LockAddress())
  }

  ghost predicate ItemsOwned(l: Ledger, p: Params, h: seq<Gathered>) {
    h == [] || (ItemsOwned(l, p, DropLast(h)) && ItemOwned(l, p, Last(h)))
  }

  /** The record and the plan agree. */
  ghost predicate RecordOk(p: Params, l: Ledger, rec: BatchRecord, hist: seq<Gathered>, frozen: seq<Utxo>) {
    && (rec == NEW_BATCH <==> hist == [])
    && Planned(p, rec.rbf, hist, frozen)
    && rec.prevOrders == Keys(Items(hist)) && DistinctKeys(Items(hist))
    && ItemsOwned(l, p, hist)
    && Owned(l, frozen, p.Home()) && Owned(l, rec.rbf.firstUtxos, p.Home())
    && NoDup(Ops(frozen + rec.rbf.firstUtxos))
  }

  // ------------------------------------------------ ownership keeps inputs apart

  lemma {:induction false} Apart<T>(a: seq<T>, b: seq<T>, c: seq<T>)
    requires NoDup(a + c) && NoDup(b)
    requires forall x :: x in b ==> x !in a && x !in c
    ensures NoDup(a + b + c)
  {
    var s, t := a + b + c, a + c;
    forall i, j | 0 <= i < j < |s| ensures s[i] != s[j] {
      var inB: int -> bool := k => |a| <= k < |a| + |b|;
      if inB(i) && inB(j) {
        assert b[i - |a|] != b[j - |a|];
      } else if inB(i) {
        assert s[i] in b && s[j] in c;
      } else if inB(j) {
        assert s[j] in b && s[i] in a;
      } else {
        var at: int -> int := k => if k < |a| then k else k - |b|;
        assert s[i] == t[at(i)] && s[j] == t[at(j)];
      }
    }
  }

  lemma {:induction false} OwnedOp(l: Ledger, us: seq<Utxo>, a: Address, op: OutPoint)
    requires Owned(l, us, a) && op in Ops(us)
    ensures op in l.outs && l.outs[op].to == a
  {
    var i :| 0 <= i < |us| && Ops(us)[i] == op;
    assert us[i].op == op;
  }

  /** Every raw input sits at the address of an action that is not an initiate. */
  lemma {:induction false} RawOwner(l: Ledger, p: Params, h: seq<Gathered>, op: OutPoint) returns (j: nat)
    requires ItemsOwned(l, p, h) && op in Ops(RawInputs(h))
    ensures j < |h| && j < |Items(h)| && Items(h)[j] == h[j].item && op in l.outs
    ensures RoleOk(p, h[j].item) && h[j].item.action != Initiate
    ensures l.outs[op].to == h[j].item.swap.LockAddress()
  {
    var d, x := DropLast(h), Last(h);
    ItemsLength(h);
    ItemsLength(d);
    OpsConcat(RawInputs(d), x.utxos);
    if op in Ops(x.utxos) {
      OwnedOp(l, x.utxos, x.item.swap.LockAddress(), op);
      j := |h| - 1;
    } else {
      j := RawOwner(l, p, d, op);
      assert Items(h)[j] == Items(d)[j];
    }
  }

  /** One address, one key. */
  lemma {:induction false} AddressGivesKey(p: Params, a: ActionItem, b: ActionItem)
    requires RoleOk(p, a) && RoleOk(p, b) && a.action != Initiate && b.action != Initiate
    requires a.swap.LockAddress() == b.swap.LockAddress()
    ensures KeyOf(a) == KeyOf(b)
  {
    assert a.swap.LockScript() == b.swap.LockScript();
  }

  lemma {:induction false} RawInputsApart(l: Ledger, p: Params, h: seq<Gathered>)
    requires ItemsOwned(l, p, h) && DistinctKeys(Items(h))
    ensures NoDup(Ops(RawInputs(h)))
  {
    if h == [] {
    } else {
      var d, x := DropLast(h), Last(h);
      ItemsLength(d);
      assert DropLast(Items(h)) == Items(d) && Last(Items(h)) == x.item;
      RawInputsApart(l, p, d);
      forall op | op in Ops(x.utxos) ensures op !in Ops(RawInputs(d)) {
        OwnedOp(l, x.utxos, x.item.swap.LockAddress(), op);
        if op in Ops(RawInputs(d)) {
          var j := RawOwner(l, p, d, op);
          KeyInKeys(Items(d), j);
          AddressGivesKey(p, d[j].item, x.item);
        }
      }
      assert NoDup(Ops(RawInputs(d)) + []) by { assert Ops(RawInputs(d)) + [] == Ops(RawInputs(d)); }
      Apart(Ops(RawInputs(d)), Ops(x.utxos), []);
      OpsConcat(RawInputs(d), x.utxos);
      assert Ops(RawInputs(h)) == Ops(RawInputs(d)) + Ops(x.utxos) + [];
    }
  }

  /** Everything a call may spend is different: frozen and pool outputs are the wallet's, raw
      inputs sit at swap addresses. */
  lemma {:induction false} OfferedApart(l: Ledger, p: Params, h: seq<Gathered>, frozen: seq<Utxo>, pool: seq<Utxo>)
    requires ItemsOwned(l, p, h) && DistinctKeys(Items(h))
    requires Owned(l, frozen, p.Home()) && Owned(l, pool, p.Home()) && NoDup(Ops(frozen + pool))
    ensures NoDup(Ops(frozen + RawInputs(h) + pool))
  {
    var raw := RawInputs(h);
    RawInputsApart(l, p, h);
    OpsConcat(frozen, pool);
    OpsConcat(frozen, raw);
    OpsConcat(frozen + raw, pool);
    forall op | op in Ops(raw) ensures op !in Ops(frozen) && op !in Ops(pool) {
      var j := RawOwner(l, p, h, op);
      if op in Ops(frozen) {
        OwnedOp(l, frozen, p.Home(), op);
      }
      if op in Ops(pool) {
        OwnedOp(l, pool, p.Home(), op);
      }
    }
    Apart(Ops(frozen), Ops(raw), Ops(pool));
  }

  // ------------------------------------------------ gathering from true answers

  lemma {:induction false} TrueIsOwned(l: Ledger, us: seq<Utxo>, a: Address)
    requires TrueView(l, us, a)
    ensures NoDup(Ops(ConfirmedOnly(us))) && Owned(l, ConfirmedOnly(us), a)
  {
    ConfirmedOnlyNoDup(us);
    var c := ConfirmedOnly(us);
    forall i | 0 <= i < |c| ensures c[i].op in l.outs && l.outs[c[i].op] == TxOut(a, c[i].amount) {
      ConfirmedOnlyMember(us, c[i]);
      var j :| 0 <= j < |us| && us[j] == c[i];
    }
  }

  lemma {:induction false} GatheredOwned(p: Params, l: Ledger, views: Views, actions: seq<ActionItem>)
    requires TrueViews(l, views) && Gather(p, views, actions).Ok?
    requires forall i :: 0 <= i < |actions| ==> RoleOk(p, actions[i])
    ensures ItemsOwned(l, p, Gather(p, views, actions).value)
  {
    if actions == [] {
    } else {
      GatheredOwned(p, l, views, DropLast(actions));
      var g, a := Gather(p, views, actions).value, Last(actions);
      assert DropLast(g) == Gather(p, views, DropLast(actions)).value;
      assert RoleOk(p, a);
      if a.action != Initiate {
        TrueIsOwned(l, views[a.swap.LockAddress()], a.swap.LockAddress());
      }
    }
  }

  lemma {:induction false} PoolOwned(p: Params, l: Ledger, views: Views, rec: BatchRecord, hist: seq<Gathered>,
                                     frozen: seq<Utxo>)
    requires TrueViews(l, views) && RecordOk(p, l, rec, hist, frozen) && Pool(p, views, rec.rbf).Ok?
    requires rec.rbf.IsNil() ==> frozen == []
    ensures Owned(l, Pool(p, views, rec.rbf).value, p.Home())
    ensures NoDup(Ops(frozen + Pool(p, views, rec.rbf).value))
  {
    if rec.rbf.IsNil() {
      TrueIsOwned(l, views[p.Home()], p.Home());
      assert frozen + Pool(p, views, rec.rbf).value == Pool(p, views, rec.rbf).value;
    }
  }

  // ------------------------------------------------ concatenated histories

  lemma {:induction false} ItemsConcat(a: seq<Gathered>, b: seq<Gathered>)
    ensures Items(a + b) == Items(a) + Items(b)
  {
    if b == [] {
      assert a + b == a;
    } else {
      assert DropLast(a + b) == a + DropLast(b);
      ItemsConcat(a, DropLast(b));
    }
  }

  lemma {:induction false} KeysConcat(a: seq<ActionItem>, b: seq<ActionItem>)
    ensures Keys(a + b) == Keys(a) + Keys(b)
  {
    if b == [] {
      assert a + b == a;
    } else {
      assert DropLast(a + b) == a + DropLast(b);
      KeysConcat(a, DropLast(b));
    }
  }

  lemma {:induction false} DistinctConcat(a: seq<ActionItem>, b: seq<ActionItem>)
    requires DistinctKeys(a) && DistinctKeys(b) && Keys(a) !! Keys(b)
    ensures DistinctKeys(a + b)
  {
    if b == [] {
      assert a + b == a;
    } else {
      assert DropLast(a + b) == a + DropLast(b);
      DistinctConcat(a, DropLast(b));
      KeysConcat(a, DropLast(b));
    }
  }

  lemma {:induction false} ItemsOwnedConcat(l: Ledger, p: Params, a: seq<Gathered>, b: seq<Gathered>)
    requires ItemsOwned(l, p, a) && ItemsOwned(l, p, b)
    ensures ItemsOwned(l, p, a + b)
  {
    if b == [] {
      assert a + b == a;
    } else {
      assert DropLast(a + b) == a + DropLast(b);
      ItemsOwnedConcat(l, p, a, DropLast(b));
    }
  }

  lemma {:induction false} ItemsOwnedGrows(l: Ledger, l': Ledger, p: Params, h: seq<Gathered>)
    requires Grows(l, l') && ItemsOwned(l, p, h)
    ensures ItemsOwned(l', p, h)
  {
    if h == [] {
    } else {
      ItemsOwnedGrows(l, l', p, DropLast(h));
    }
  }

  lemma {:induction false} RecordGrows(p: Params, l: Ledger, l': Ledger, rec: BatchRecord, hist: seq<Gathered>,
                                       frozen: seq<Utxo>)
    requires Grows(l, l') && RecordOk(p, l, rec, hist, frozen)
    ensures RecordOk(p, l', rec, hist, frozen)
  {
    hide Planned;
    ItemsOwnedGrows(l, l', p, hist);
  }

  lemma {:induction false} NewRecordOk(p: Params, l: Ledger)
    ensures RecordOk(p, l, NEW_BATCH, [], [])
  {
    StartsPlanned(p);
  }

  // ------------------------------------------------ one submission

  ghost predicate RolesOk(p: Params, actions: seq<ActionItem>) {
    forall i :: 0 <= i < |actions| ==> RoleOk(p, actions[i])
  }

  ghost predicate RecInv(p: Params, s: State, hist: seq<Gathered>, frozen: seq<Utxo>) {
    && RecordOk(p, s.ledger, s.store, hist, frozen)
    && (s.phase != Idle ==> RolesOk(p, s.phase.actions))
  }

  function CallOf(e: Event): Call
    requires e.Sent?
  {
    Call(e.g, e.pool, e.est, e.tx, e.rate, e.next)
  }

  lemma {:induction false} NilFreezesNothing(terms: Terms, p: Params, l: Ledger, rec: BatchRecord,
                                             hist: seq<Gathered>, frozen: seq<Utxo>)
    requires StoreOk(terms, rec) && RecordOk(p, l, rec, hist, frozen)
    ensures rec.rbf.IsNil() <==> rec == NEW_BATCH
    ensures rec == NEW_BATCH ==> frozen == []
    ensures rec.rbf.vin == frozen + RawInputs(hist)
  {
    var z := Extend(p, FrozenBase(p, frozen), hist);
    assert z.vin == frozen + RawInputs(hist);
    assert PlanOf(rec.rbf).vin == rec.rbf.vin;
  }

  /** What a call works with: owned, all different, under keys not used before. */
  lemma {:induction false} WorkInputs(p: Params, terms: Terms, s: State, orphans: Orphans, views: Views,
                                      est: Option<Pos>, g: seq<Gathered>, pool: seq<Utxo>, hist: seq<Gathered>,
                                      frozen: seq<Utxo>)
    requires Inv(terms, s, orphans) && RecInv(p, s, hist, frozen)
    requires s.phase.Working? && TrueViews(s.ledger, views)
    requires Inputs(p, views, s.phase.actions, s.store.rbf, est) == Ok((g, pool))
    ensures ItemsOwned(s.ledger, p, hist + g) && DistinctKeys(Items(hist + g))
    ensures Keys(Items(hist + g)) == s.store.prevOrders + Keys(s.phase.actions)
    ensures Owned(s.ledger, pool, p.Home()) && NoDup(Ops(frozen + pool))
    ensures s.store.rbf.vin + RawInputs(g) + pool == frozen + RawInputs(hist + g) + pool
    ensures NoDup(Ops(s.store.rbf.vin + RawInputs(g) + pool))
  {
    hide Inv, RecInv, Inputs, TrueViews, RawInputs, ItemsOwned, Keys, DistinctKeys, Items, Owned, NoDup, Planned;
    WorkGathered(p, terms, s, orphans, views, est, g, pool, hist, frozen);
    JoinedHistory(p, s.ledger, s.store.rbf, hist, g, frozen, pool);
  }

  /** What a call gathered, before it is joined with the history. */
  lemma {:induction false} WorkGathered(p: Params, terms: Terms, s: State, orphans: Orphans, views: Views,
                                        est: Option<Pos>, g: seq<Gathered>, pool: seq<Utxo>, hist: seq<Gathered>,
                                        frozen: seq<Utxo>)
    requires Inv(terms, s, orphans) && RecInv(p, s, hist, frozen)
    requires s.phase.Working? && TrueViews(s.ledger, views)
    requires Inputs(p, views, s.phase.actions, s.store.rbf, est) == Ok((g, pool))
    ensures Items(g) == s.phase.actions
    ensures ItemsOwned(s.ledger, p, hist) && ItemsOwned(s.ledger, p, g)
    ensures DistinctKeys(Items(hist)) && DistinctKeys(Items(g)) && Keys(Items(hist)) !! Keys(Items(g))
    ensures s.store.prevOrders == Keys(Items(hist)) && s.store.rbf.vin == frozen + RawInputs(hist)
    ensures Owned(s.ledger, frozen, p.Home()) && Owned(s.ledger, pool, p.Home()) && NoDup(Ops(frozen + pool))
  {
    hide Planned, Gather, AtMostOnce, AllClosed, LedgerOk, BroadcastOk, ConfirmedPaysTerms, StoreOk, WorkOk,
      RecipientsOpen, TrueView, RawInputs, ItemsOwned, Keys, DistinctKeys, Items, NoDup, Pool;
    var l, rec := s.ledger, s.store;
    GatheredItems(p, views, s.phase.actions);
    NilFreezesNothing(terms, p, l, rec, hist, frozen);
    GatheredOwned(p, l, views, s.phase.actions);
    PoolOwned(p, l, views, rec, hist, frozen);
    FreshKeys(l, terms, rec, orphans, s.phase.actions);
  }

  lemma {:induction false} SentInputs(p: Params, terms: Terms, s: State, s': State, orphans: Orphans, e: Event,
                                      hist: seq<Gathered>, frozen: seq<Utxo>)
    requires Inv(terms, s, orphans) && RecInv(p, s, hist, frozen)
    requires e.Sent? && Hyp(p, terms, s, e) && Step(p, s, e, s')
    ensures Succeeds(p, s.store.rbf, CallOf(e))
    ensures ItemsOwned(s.ledger, p, hist + e.g) && DistinctKeys(Items(hist + e.g))
    ensures Keys(Items(hist + e.g)) == s.store.prevOrders + Keys(s.phase.actions)
    ensures Owned(s.ledger, e.pool, p.Home()) && NoDup(Ops(frozen + e.pool))
    ensures Offered(s.store.rbf, CallOf(e)) == frozen + RawInputs(hist + e.g) + e.pool
    ensures NoDup(Ops(Offered(s.store.rbf, CallOf(e))))
  {
    SentCall(p, s, s', e);
    SentWorks(p, terms, s, s', e);
    hide Inv, RecInv, Hyp, Step, Succeeds, Inputs, TrueViews, RawInputs, ItemsOwned, Keys, DistinctKeys, Items,
      Owned, NoDup;
    WorkInputs(p, terms, s, orphans, e.sentViews, Some(e.est), e.g, e.pool, hist, frozen);
  }

  lemma {:induction false} SentCall(p: Params, s: State, s': State, e: Event)
    requires e.Sent? && Step(p, s, e, s')
    ensures Succeeds(p, s.store.rbf, CallOf(e))
  {
    hide Step, Accepted;
    SentFacts(p, s, s', e);
  }

  lemma {:induction false} SentWorks(p: Params, terms: Terms, s: State, s': State, e: Event)
    requires e.Sent? && Hyp(p, terms, s, e) && Step(p, s, e, s')
    ensures s.phase.Working? && TrueViews(s.ledger, e.sentViews)
    ensures Inputs(p, e.sentViews, s.phase.actions, s.store.rbf, Some(e.est)) == Ok((e.g, e.pool))
  {
    hide Accepted, Inputs, TrueViews, Spendable;
  }

  lemma {:induction false} JoinedHistory(p: Params, l: Ledger, r: Rbf, hist: seq<Gathered>, g: seq<Gathered>,
                                         frozen: seq<Utxo>, pool: seq<Utxo>)
    requires ItemsOwned(l, p, hist) && ItemsOwned(l, p, g)
    requires DistinctKeys(Items(hist)) && DistinctKeys(Items(g)) && Keys(Items(hist)) !! Keys(Items(g))
    requires r.vin == frozen + RawInputs(hist)
    requires Owned(l, frozen, p.Home()) && Owned(l, pool, p.Home()) && NoDup(Ops(frozen + pool))
    ensures ItemsOwned(l, p, hist + g) && DistinctKeys(Items(hist + g))
    ensures Keys(Items(hist + g)) == Keys(Items(hist)) + Keys(Items(g))
    ensures r.vin + RawInputs(g) + pool == frozen + RawInputs(hist + g) + pool
    ensures NoDup(Ops(r.vin + RawInputs(g) + pool))
  {
    hide RawInputs, ItemsOwned, Keys, DistinctKeys, Items, Owned, NoDup;
    ItemsConcat(hist, g);
    KeysConcat(Items(hist), Items(g));
    DistinctConcat(Items(hist), Items(g));
    ItemsOwnedConcat(l, p, hist, g);
    RawInputsConcat(hist, g);
    OfferedApart(l, p, hist + g, frozen, pool);
    assert (frozen + RawInputs(hist)) + RawInputs(g) == frozen + (RawInputs(hist) + RawInputs(g));
  }

  lemma {:induction false} FreshKeys(l: Ledger, terms: Terms, rec: BatchRecord, orphans: Orphans,
                                     actions: seq<ActionItem>)
    requires WorkOk(l, terms, rec, orphans, actions)
    ensures rec.prevOrders !! Keys(actions) && DistinctKeys(actions)
    ensures rec == NEW_BATCH ==> actions != []
  {
    forall k | k in Keys(actions) ensures k !in rec.prevOrders {
      NewKey(l, terms, rec, orphans, actions, k);
    }
  }

  /** Frozen inputs are recorded with their true amounts. */
  lemma {:induction false} FrozenOwned(p: Params, l: Ledger, r: Rbf, c: Call)
    requires Succeeds(p, r, c) && r.vin + RawInputs(c.g) == [] && NoDup(Ops(c.pool)) && Owned(l, c.pool, p.Home())
    ensures Owned(l, InputsOf(SignerTable(r, c.g, c.pool), c.tx), p.Home())
    ensures Ops(InputsOf(SignerTable(r, c.g, c.pool), c.tx)) == Ops(c.pool[..|c.tx.ins|]) && |c.tx.ins| <= |c.pool|
  {
    hide Succeeds, RawInputs, Amounts, NoDup;
    PrevsAreOffered(p, r, c);
    assert r.vin + RawInputs(c.g) + c.pool == c.pool;
    var us, k := InputsOf(SignerTable(r, c.g, c.pool), c.tx), |c.tx.ins|;
    assert |Prevs(c.tx.ins)| == k;
    forall i | 0 <= i < k ensures us[i] == Utxo(c.pool[i].op, c.pool[i].amount, NoStatus) {
      assert Prevs(c.tx.ins)[i] == Ops(c.pool[..k])[i];
      AmountsTrue(c.pool, i);
    }
    assert Ops(us) == Ops(c.pool[..k]);
  }

  /** The wallet outputs kept for later replacements. */
  lemma {:induction false} KeptUtxos(p: Params, r: Rbf, c: Call)
    requires Succeeds(p, r, c)
    ensures c.next.firstUtxos == if r.vin + RawInputs(c.g) == [] then c.pool[|c.tx.ins|..] else c.pool
  {
    hide Builds, SignedBy, SignerTable, WitnessSize, Types, Scripts, Secrets, Sequences, RawInputs, VSize, TotalFee,
      InputsOf;
  }

  /** An initiate-only first transaction splits the pool into frozen inputs and the rest. */
  lemma {:induction false} SplitPool(p: Params, l: Ledger, r: Rbf, c: Call)
    requires Succeeds(p, r, c) && r.vin + RawInputs(c.g) == [] && NoDup(Ops(c.pool)) && Owned(l, c.pool, p.Home())
    ensures
      var us := InputsOf(SignerTable(r, c.g, c.pool), c.tx);
      && Owned(l, us, p.Home()) && Owned(l, c.next.firstUtxos, p.Home())
      && NoDup(Ops(us + c.next.firstUtxos))
  {
    hide Succeeds, SignerTable, RawInputs, NoDup, InputsOf;
    KeptUtxos(p, r, c);
    FrozenOwned(p, l, r, c);
    var us, k := InputsOf(SignerTable(r, c.g, c.pool), c.tx), |c.tx.ins|;
    OpsConcat(us, c.pool[k..]);
    OpsConcat(c.pool[..k], c.pool[k..]);
    assert c.pool[..k] + c.pool[k..] == c.pool;
  }

  lemma {:induction false} SentFreezes(p: Params, l: Ledger, r: Rbf, c: Call, frozen: seq<Utxo>)
    requires Succeeds(p, r, c) && frozen <= r.vin
    requires Owned(l, frozen, p.Home()) && Owned(l, c.pool, p.Home()) && NoDup(Ops(frozen + c.pool))
    ensures
      var frozen' := FrozenAfter(r, c, frozen);
      && Owned(l, frozen', p.Home()) && Owned(l, c.next.firstUtxos, p.Home())
      && NoDup(Ops(frozen' + c.next.firstUtxos))
  {
    hide Succeeds, SignerTable, RawInputs, NoDup, InputsOf, Owned;
    KeptUtxos(p, r, c);
    if |r.vin| == 0 && |RawInputs(c.g)| == 0 {
      assert frozen + c.pool == c.pool;
      assert r.vin + RawInputs(c.g) == [];
      SplitPool(p, l, r, c);
    } else {
      assert r.vin + RawInputs(c.g) != [];
    }
  }

  lemma {:induction false} SentRecord(p: Params, terms: Terms, s: State, s': State, orphans: Orphans, e: Event,
                                      hist: seq<Gathered>, frozen: seq<Utxo>)
    requires Inv(terms, s, orphans) && RecInv(p, s, hist, frozen)
    requires e.Sent? && Hyp(p, terms, s, e) && Step(p, s, e, s') && e.stored
    ensures RecInv(p, s', hist + e.g, FrozenAfter(s.store.rbf, CallOf(e), frozen))
  {
    hide Inv, Hyp, Step, Planned, Keys, Items, DistinctKeys, Owned, FrozenAfter, Succeeds, ItemsOwned, RawInputs;
    var c := CallOf(e);
    SentInputs(p, terms, s, s', orphans, e, hist, frozen);
    SentFacts(p, s, s', e);
    InvStore(terms, s, orphans);
    NilFreezesNothing(terms, p, s.ledger, s.store, hist, frozen);
    PlannedStep(p, s.store.rbf, hist, frozen, c);
    SentFreezes(p, s.ledger, s.store.rbf, c, frozen);
    BroadcastGrows(s.ledger, e.tx);
    NonEmptyAfter(terms, s, orphans, e.g, hist);
    AfterSentIsLive(p, terms, s, s', orphans, e);
    RecordGrowsPart(p, s.ledger, s'.ledger, hist + e.g, FrozenAfter(s.store.rbf, c, frozen), c.next.firstUtxos);
  }

  lemma {:induction false} AfterSentIsLive(p: Params, terms: Terms, s: State, s': State, orphans: Orphans, e: Event)
    requires Inv(terms, s, orphans) && e.Sent? && Step(p, s, e, s') && e.stored
    ensures s'.store != NEW_BATCH
  {
    hide Inv, Step;
    SentStore(p, terms, s, s', orphans, e);
  }

  lemma {:induction false} InvStore(terms: Terms, s: State, orphans: Orphans)
    requires Inv(terms, s, orphans)
    ensures StoreOk(terms, s.store)
  {
  }

  lemma {:induction false} NonEmptyAfter(terms: Terms, s: State, orphans: Orphans, g: seq<Gathered>,
                                         hist: seq<Gathered>)
    requires Inv(terms, s, orphans) && s.phase.Working? && Items(g) == s.phase.actions
    requires s.store == NEW_BATCH <==> hist == []
    ensures hist + g != []
  {
    if hist == [] {
      assert s.phase.actions != [];
    }
  }

  lemma {:induction false} BroadcastGrows(l: Ledger, tx: Tx)
    ensures Grows(l, l.Broadcast(tx))
  {
  }

  lemma {:induction false} RecordGrowsPart(p: Params, l: Ledger, l': Ledger, h: seq<Gathered>, frozen: seq<Utxo>,
                                           kept: seq<Utxo>)
    requires Grows(l, l') && ItemsOwned(l, p, h) && Owned(l, frozen, p.Home()) && Owned(l, kept, p.Home())
    ensures ItemsOwned(l', p, h) && Owned(l', frozen, p.Home()) && Owned(l', kept, p.Home())
  {
    ItemsOwnedGrows(l, l', p, h);
  }

  // ------------------------------------------------ every step and every run

  lemma {:induction false} PickedRole(p: Params, terms: Terms, prev: set<BatchKey>, views: Views, o: Order,
                                      a: ActionItem)
    requires KnownOrder(p, terms, o) && PickOrder(BitcoinChain, prev, views, o) == Take(a)
    ensures RoleOk(p, a)
  {
  }

  lemma {:induction false} ChosenRoles(p: Params, terms: Terms, s: State, s': State, e: Event)
    requires s.phase != Idle ==> RolesOk(p, s.phase.actions)
    requires (e.Begin? || e.Look? || e.Decide?) && Hyp(p, terms, s, e) && Step(p, s, e, s')
    ensures s'.phase != Idle ==> RolesOk(p, s'.phase.actions)
  {
    if e.Look? && PickOrder(BitcoinChain, s.store.prevOrders, e.views, s.phase.rest[0]).Take? {
      var o := s.phase.rest[0];
      PickedRole(p, terms, s.store.prevOrders, e.views, o,
                 PickOrder(BitcoinChain, s.store.prevOrders, e.views, o).item);
    }
  }

  lemma {:induction false} StepGrows(p: Params, terms: Terms, s: State, s': State, orphans: Orphans, e: Event)
    requires Inv(terms, s, orphans) && Step(p, s, e, s')
    ensures Grows(s.ledger, s'.ledger)
  {
    if e.Confirm? {
      ConfirmGrows(s.ledger, e.confirmed);
    }
  }

  /** An indexer answer that was true at some moment of a run is true from then on. */
  lemma {:induction false} AnswersStayTrue(p: Params, terms: Terms, states: seq<State>, events: seq<Event>, i: nat,
                                           views: Views)
    requires Run(p, terms, states, events) && Initial(states[0])
    requires i < |states| && TrueViews(states[i].ledger, views)
    ensures TrueViews(Last(states).ledger, views)
  {
    hide Hyp, Step, Initial, Inv, TrueViews, Grows;
    if i == |states| - 1 {
    } else {
      var s, e, s' := states[|states| - 2], Last(events), Last(states);
      AnswersStayTrue(p, terms, DropLast(states), DropLast(events), i, views);
      InitialInv(terms, states[0]);
      var orphans := RunKeeps(p, terms, DropLast(states), DropLast(events), map[]);
      StepGrows(p, terms, s, s', orphans, e);
      TrueGrows(s.ledger, s'.ledger, views);
    }
  }

  lemma {:induction false} TrueGrows(l: Ledger, l': Ledger, views: Views)
    requires Grows(l, l') && TrueViews(l, views)
    ensures TrueViews(l', views)
  {
    forall a | a in views ensures TrueView(l', views[a], a) {
      assert TrueView(l, views[a], a);
    }
  }

  /** What a step that submits nothing it records does to record and poll. */
  lemma {:induction false} OtherSteps(p: Params, s: State, s': State, e: Event)
    requires Step(p, s, e, s')
    ensures e.Begin? || e.Look? || e.Decide? ==> s'.store == s.store
    ensures e.Missing? && e.resetStored ==> s'.store == NEW_BATCH && s'.phase == Idle
    ensures (e.Sent? && !e.stored) || (e.Missing? && !e.resetStored) || e.Failed? ==>
              s'.store == s.store && s'.phase == Idle
    ensures e.Confirm? || e.Deposit? || e.Spend? ==> s'.store == s.store && s'.phase == s.phase
  {
    hide AnswersMissing, Accepted, Inputs, Spendable, Chosen, Decided;
  }

  lemma {:induction false} RecordStep(p: Params, terms: Terms, s: State, s': State, orphans: Orphans, e: Event,
                                      hist: seq<Gathered>, frozen: seq<Utxo>)
    returns (hist': seq<Gathered>, frozen': seq<Utxo>)
    requires Inv(terms, s, orphans) && RecInv(p, s, hist, frozen)
    requires Hyp(p, terms, s, e) && Step(p, s, e, s')
    ensures RecInv(p, s', hist', frozen')
  {
    hide Inv, Hyp, Step, RecordOk, Grows, RolesOk;
    hist', frozen' := hist, frozen;
    StepGrows(p, terms, s, s', orphans, e);
    RecordGrows(p, s.ledger, s'.ledger, s.store, hist, frozen);
    OtherSteps(p, s, s', e);
    if e.Begin? || e.Look? || e.Decide? {
      ChosenRoles(p, terms, s, s', e);
    } else if e.Sent? && e.stored {
      hist', frozen' := hist + e.g, FrozenAfter(s.store.rbf, CallOf(e), frozen);
      SentRecord(p, terms, s, s', orphans, e, hist, frozen);
    } else if e.Missing? && e.resetStored {
      hist', frozen' := [], [];
      NewRecordOk(p, s'.ledger);
    }
  }

  lemma {:induction false} RunRecords(p: Params, terms: Terms, states: seq<State>, events: seq<Event>)
    returns (orphans: Orphans, hist: seq<Gathered>, frozen: seq<Utxo>)
    requires Run(p, terms, states, events) && Initial(states[0])
    ensures Inv(terms, Last(states), orphans) && RecInv(p, Last(states), hist, frozen)
  {
    hide Inv, Hyp, Step, RecordOk, StoreOk;
    if events == [] {
      InitialInv(terms, states[0]);
      orphans, hist, frozen := map[], [], [];
      NewRecordOk(p, states[0].ledger);
    } else {
      var s, e, s' := states[|states| - 2], Last(events), Last(states);
      orphans, hist, frozen := RunRecords(p, terms, DropLast(states), DropLast(events));
      hist, frozen := RecordStep(p, terms, s, s', orphans, e, hist, frozen);
      orphans := StepKeeps(p, terms, s, s', orphans, e);
    }
  }

  // ------------------------------------------------ what this gives in every reachable state

  /** In every reachable state the record lists exactly the actions its options plan for: no
      keys iff no chain, one recipient per initiate key, and every redeem or refund key with its
      outputs among the raw inputs. */
  lemma {:induction false} RecordAgrees(p: Params, terms: Terms, states: seq<State>, events: seq<Event>)
    returns (hist: seq<Gathered>, frozen: seq<Utxo>)
    requires Run(p, terms, states, events) && Initial(states[0])
    ensures
      var rec := Last(states).store;
      && (rec.prevOrders == {} <==> rec.rbf == EMPTY_RBF) && (rec.rbf.IsNil() <==> rec.rbf == EMPTY_RBF)
      && rec.prevOrders == Keys(Items(hist)) && DistinctKeys(Items(hist))
      && rec.rbf.recipients == Recipients(hist)
      && rec.rbf.vin == frozen + RawInputs(hist)
      && (forall j :: 0 <= j < |hist| ==> ItemOwned(Last(states).ledger, p, hist[j]))
      && NoDup(Ops(rec.rbf.vin))
  {
    var s := Last(states);
    hide Run, Initial, Inv, Planned, Keys, Items, RawInputs, Recipients, ItemsOwned, ItemOwned, DistinctKeys, StoreOk,
      NoDup;
    var orphans;
    orphans, hist, frozen := RunRecords(p, terms, states, events);
    StoreShape(terms, s, orphans);
    NilFreezesNothing(terms, p, s.ledger, s.store, hist, frozen);
    RecipientsPlanned(p, s.store.rbf, hist, frozen);
    forall j | 0 <= j < |hist| ensures ItemOwned(s.ledger, p, hist[j]) {
      ItemOwnedAt(s.ledger, p, hist, j);
    }
    StoredInputsApart(p, s.ledger, s.store, hist, frozen);
  }

  /** A poll without new actions goes on only to raise the fee of a live batch. */
  lemma {:induction false} BumpReplacesBatch(p: Params, terms: Terms, states: seq<State>, events: seq<Event>,
                                             e: Event, s': State)
    requires Run(p, terms, states, events) && Initial(states[0])
    requires e.Decide? && Step(p, Last(states), e, s') && s'.phase == Working([])
    ensures !Last(states).store.rbf.IsNil() && Last(states).store.prevOrders != {}
    ensures Live(Last(states).store.rbf) && e.lowest.Some?
    ensures Last(states).store.rbf.feeRate as real < e.lowest.value + 1.0
  {
    var s := Last(states);
    GoesOnExactly(s.store, [], e.lowest);
    hide Run, Initial, Inv, Step, RecordOk;
    var orphans, hist, frozen := RunRecords(p, terms, states, events);
    StoreShape(terms, s, orphans);
  }

  lemma {:induction false} StoreShape(terms: Terms, s: State, orphans: Orphans)
    requires Inv(terms, s, orphans)
    ensures StoreOk(terms, s.store)
    ensures s.store.prevOrders == {} <==> s.store.rbf == EMPTY_RBF
    ensures s.store == NEW_BATCH <==> s.store.rbf == EMPTY_RBF
  {
  }

  lemma {:induction false} StoredInputsApart(p: Params, l: Ledger, rec: BatchRecord, hist: seq<Gathered>,
                                             frozen: seq<Utxo>)
    requires RecordOk(p, l, rec, hist, frozen) && rec.rbf.vin == frozen + RawInputs(hist)
    ensures NoDup(Ops(rec.rbf.vin))
  {
    hide Planned, Keys, RawInputs, ItemsOwned, DistinctKeys;
    OpsConcat(frozen, rec.rbf.firstUtxos);
    NoDupPrefix(Ops(frozen), Ops(frozen + rec.rbf.firstUtxos));
    assert frozen + [] == frozen;
    OfferedApart(l, p, hist, frozen, []);
    assert frozen + RawInputs(hist) + [] == rec.rbf.vin;
  }

  lemma {:induction false} RecipientsPlanned(p: Params, r: Rbf, hist: seq<Gathered>, frozen: seq<Utxo>)
    requires Planned(p, r, hist, frozen)
    ensures r.recipients == Recipients(hist)
  {
    assert PlanOf(r).recipients == r.recipients;
    hide Extend, PlanOf;
    ScratchPlan(p, hist, frozen);
  }

  lemma {:induction false} ItemOwnedAt(l: Ledger, p: Params, h: seq<Gathered>, j: nat)
    requires ItemsOwned(l, p, h) && j < |h|
    ensures ItemOwned(l, p, h[j])
  {
    if j == |h| - 1 {
    } else {
      ItemOwnedAt(l, p, DropLast(h), j);
    }
  }

  lemma {:induction false} TableHas(all: seq<Utxo>, u: Utxo)
    requires NoDup(Ops(all)) && u in all
    ensures u.op in Amounts(all) && Amounts(all)[u.op] == u.amount
  {
    var i :| 0 <= i < |all| && all[i] == u;
    AmountsTrue(all, i);
  }

  lemma {:induction false} TableAgrees(p: Params, r: Rbf, g: seq<Gathered>, pool: seq<Utxo>)
    requires NoDup(Ops(r.vin + RawInputs(g) + pool))
    ensures FeesAgree(Extend(p, r, g), pool, SignerTable(r, g, pool))
  {
    var vin := r.vin + RawInputs(g);
    var all := vin + pool;
    assert Extend(p, r, g).vin == vin && SignerTable(r, g, pool) == Amounts(all);
    hide Extend, RawInputs, Amounts, NoDup, Ops, SignerTable;
    forall u | u in vin || u in pool ensures u.op in Amounts(all) && Amounts(all)[u.op] == u.amount {
      assert u in all;
      TableHas(all, u);
    }
  }

  /** Every transaction any run submits spends different, confirmed outputs; each input is signed
      for the action that brought it in with the true amount; and the size estimate behind its fee
      counts each input once. */
  lemma {:induction false} SubmissionsAreRight(p: Params, terms: Terms, states: seq<State>, events: seq<Event>,
                                               e: Event, s': State)
    returns (hist: seq<Gathered>, frozen: seq<Utxo>)
    requires Run(p, terms, states, events) && Initial(states[0])
    requires e.Sent? && Step(p, Last(states), e, s') && Hyp(p, terms, Last(states), e)
    ensures Last(states).store.prevOrders == Keys(Items(hist))
    ensures ItemsOwned(Last(states).ledger, p, hist + e.g)
    ensures Owned(Last(states).ledger, frozen, p.Home()) && Owned(Last(states).ledger, e.pool, p.Home())
    ensures CallRight(p, Last(states).store.rbf, hist + e.g, frozen, CallOf(e))
  {
    var s, c := Last(states), CallOf(e);
    hide Run, Initial, Inv, Step, Hyp, Planned, Succeeds, CallRight, ItemsOwned, RawInputs, Keys, Items, DistinctKeys;
    var orphans;
    orphans, hist, frozen := RunRecords(p, terms, states, events);
    SentInputs(p, terms, s, s', orphans, e, hist, frozen);
    CallIsRight(p, s.store.rbf, hist, frozen, c);
  }

  /** What is right about one call's transaction. */
  ghost predicate CallRight(p: Params, r: Rbf, h: seq<Gathered>, frozen: seq<Utxo>, c: Call) {
    var d := Extend(p, r, c.g);
    && SignedAsPlanned(p, h, frozen, c.pool, c.tx.ins)
    && NoDup(Prevs(c.tx.ins))
    && d.segwit + p.keyWeight * (|c.tx.ins| - |d.vin|) == SumSizes(p, d, Prevs(c.tx.ins))
    && FeesAgree(d, c.pool, SignerTable(r, c.g, c.pool))
  }

  lemma {:induction false} CallIsRight(p: Params, r: Rbf, hist: seq<Gathered>, frozen: seq<Utxo>, c: Call)
    requires Planned(p, r, hist, frozen) && Succeeds(p, r, c) && NoDup(Ops(Offered(r, c)))
    ensures CallRight(p, r, hist + c.g, frozen, c)
  {
    hide Planned, Succeeds, SignedAsPlanned, SumSizes, Extend, FeesAgree, SignerTable, RawInputs, NoDup;
    SignPlanIsRight(p, r, hist, frozen, c);
    NoOutpointTwice(p, r, c);
    EstimateCountsEveryInput(p, r, hist, frozen, c);
    assert Offered(r, c) == r.vin + RawInputs(c.g) + c.pool;
    TableAgrees(p, r, c.g, c.pool);
  }

  /** In every reachable state the errors about missing signing data, and the failure of the
      first-input check, are impossible whatever the new actions are. */
  lemma {:induction false} GuardsUnreachable(p: Params, terms: Terms, states: seq<State>, events: seq<Event>,
                                             g: seq<Gathered>, pool: seq<Utxo>)
    requires Run(p, terms, states, events) && Initial(states[0])
    ensures !CannotSign(p, Last(states).store.rbf, g, pool)
    ensures !Last(states).store.rbf.IsNil() ==> !LostFirstInputs(p, Last(states).store.rbf, g, pool)
  {
    var s := Last(states);
    var orphans, hist, frozen := RunRecords(p, terms, states, events);
    InvStore(terms, s, orphans);
    hide Run, Initial, Inv, Planned, CannotSign, LostFirstInputs;
    SigningDataIsComplete(p, s.store.rbf, hist, frozen, g, pool);
    if s.store != NEW_BATCH {
      GuardNeverFails(p, s.store.rbf, g, pool);
    }
  }

  // ------------------------------------------------ the fee loop in reachable states

  /** A call whose signer knows its outputs stores a positive fee. */
  lemma {:induction false} StoresFee(p: Params, r: Rbf, c: Call)
    requires Succeeds(p, r, c) && FeesAgree(Extend(p, r, c.g), c.pool, SignerTable(r, c.g, c.pool))
    ensures c.next.fee >= 1
  {
    var d, amounts := Extend(p, r, c.g), SignerTable(r, c.g, c.pool);
    assert Builds(p, c.rate, d, c.pool, c.tx) && c.rate >= 1 && c.next.fee == TotalFee(amounts, c.tx);
    hide Succeeds, Extend, SignerTable, Builds, FeesAgree, TotalFee;
    FeeAtLeast(p, c.rate, d, c.pool, amounts, c.tx);
    TimesPositive(c.rate, VSize(p, d, c.tx));
  }

  /** In every reachable state the stored fee is not negative. */
  lemma {:induction false} StoredFee(p: Params, terms: Terms, states: seq<State>, events: seq<Event>)
    requires Run(p, terms, states, events) && Initial(states[0])
    ensures Last(states).store.rbf.fee >= 0
  {
    hide Hyp, Initial, Step, Succeeds, CallRight;
    if events == [] {
      InitialFee(states[0]);
    } else {
      var s, e, s' := states[|states| - 2], Last(events), Last(states);
      StoredFee(p, terms, DropLast(states), DropLast(events));
      if e.Sent? {
        var hist, frozen := SubmissionsAreRight(p, terms, DropLast(states), DropLast(events), e, s');
        SentCall(p, s, s', e);
        RightTable(p, s.store.rbf, hist + e.g, frozen, CallOf(e));
        StoresFee(p, s.store.rbf, CallOf(e));
        SentFacts(p, s, s', e);
      } else {
        KeepsFee(p, s, e, s');
      }
    }
  }

  lemma {:induction false} InitialFee(s: State)
    requires Initial(s)
    ensures s.store.rbf.fee == 0
  {
  }

  lemma {:induction false} RightTable(p: Params, r: Rbf, h: seq<Gathered>, frozen: seq<Utxo>, c: Call)
    requires CallRight(p, r, h, frozen, c)
    ensures FeesAgree(Extend(p, r, c.g), c.pool, SignerTable(r, c.g, c.pool))
  {
    hide FeesAgree, SignedAsPlanned, SumSizes, NoDup;
  }

  lemma {:induction false} KeepsFee(p: Params, s: State, e: Event, s': State)
    requires Step(p, s, e, s') && !e.Sent?
    ensures s'.store.rbf.fee in {s.store.rbf.fee, 0}
  {
  }

  /** In every reachable state, whatever honest answers a call works with, the signer's table holds
      the true value of every output, and the fee loop, whether it succeeds or fails, gets to no rate
      above the larger of its first rate and previous fee plus relay fee. */
  lemma {:induction false} RateIsBounded(p: Params, terms: Terms, states: seq<State>, events: seq<Event>,
                                         views: Views, est: Pos, g: seq<Gathered>, pool: seq<Utxo>, rate: int)
    requires Run(p, terms, states, events) && Initial(states[0])
    requires Last(states).phase.Working? && TrueViews(Last(states).ledger, views)
    requires Inputs(p, views, Last(states).phase.actions, Last(states).store.rbf, Some(est)) == Ok((g, pool))
    requires GetsTo(p, views, Last(states).phase.actions, Last(states).store.rbf, Some(est), rate)
    ensures
      var r := Last(states).store.rbf;
      && FeesAgree(Extend(p, r, g), pool, SignerTable(r, g, pool))
      && rate <= Max(StartRate(p, r, est), r.fee + p.minRelayFee)
  {
    var s := Last(states);
    assert Tried(p, s.store.rbf, g, pool, est, rate);
    hide Run, Initial, Inv, RecInv, Inputs, GetsTo, TrueViews, Tried, FeesAgree, Extend, SignerTable, NoDup,
      RawInputs, ItemsOwned;
    var orphans, hist, frozen := RunRecords(p, terms, states, events);
    assert RecInv(p, s, hist, frozen);
    WorkInputs(p, terms, s, orphans, views, Some(est), g, pool, hist, frozen);
    TableAgrees(p, s.store.rbf, g, pool);
    StoredFee(p, terms, states, events);
    TriedIsBounded(p, s.store.rbf, g, pool, est, rate);
  }

  lemma {:induction false} TriedIsBounded(p: Params, r: Rbf, g: seq<Gathered>, pool: seq<Utxo>, est: Pos, rate: int)
    requires Tried(p, r, g, pool, est, rate) && r.fee >= 0
    requires FeesAgree(Extend(p, r, g), pool, SignerTable(r, g, pool))
    ensures rate <= Max(StartRate(p, r, est), r.fee + p.minRelayFee)
  {
    hide FeesAgree, Extend, SignerTable, Builds, TotalFee;
    if StartRate(p, r, est) < rate {
      var d, amounts := Extend(p, r, g), SignerTable(r, g, pool);
      assert FallsShort(p, rate - 1, d, pool, amounts, r.fee);
      var tx :| Builds(p, rate - 1, d, pool, tx)
                && TotalFee(amounts, tx) < r.fee + FeeFor(p.minRelayFee, VSize(p, d, tx));
      FeeForIs(p.minRelayFee, VSize(p, d, tx));
      EnoughRate(p, rate - 1, d, pool, amounts, tx, r.fee);
    }
  }

  /** In every reachable state a replacement starts from raw inputs, so it never keeps the caller's
      list of wallet outputs. */
  lemma {:induction false} NeverKeepsPool(p: Params, terms: Terms, states: seq<State>, events: seq<Event>,
                                          g: seq<Gathered>)
    requires Run(p, terms, states, events) && Initial(states[0])
    ensures !KeepsPool(Last(states).store.rbf, g)
  {
    var s := Last(states);
    hide Run, Initial, Inv, RecordOk;
    var orphans, hist, frozen := RunRecords(p, terms, states, events);
    InvStore(terms, s, orphans);
  }
}
