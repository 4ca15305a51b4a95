/** When is it harmless that the record forgets a live chain? Exactly when no forgotten
    transaction pays an HTLC that a later poll could still choose to initiate. The executor
    forgets a chain when it resets without evidence, and when the first record is lost. */
module Forgotten {
  import opened Bitcoin
  import opened Ledgers
  import opened RbfPlan
  import opened RbfChain
  import opened SignPlan
  import opened Orders
  import opened Protocol
  import opened Safety
  import opened SafetySteps

  /** No run from the state, under the hypotheses, pays an HTLC twice. */
  ghost predicate Safe(p: Params, terms: Terms, s: State) {
    forall states, events :: Run(p, terms, states, events) && states[0] == s ==> AtMostOnce(Last(states).ledger)
  }

  // ------------------------------------------------ barred HTLCs make it safe

  lemma {:induction false} BarredIsSafe(p: Params, terms: Terms, s: State, payers: Orphans)
    requires ForgotChains(terms, s, payers) && AllBarred(s.ledger, terms)
    ensures Safe(p, terms, s)
  {
    ForgottenKeeps(terms, s, payers);
    hide ForgotChains, AllBarred, Inv, Run, AtMostOnce;
    forall states, events | Run(p, terms, states, events) && |states| > 0 && states[0] == s
      ensures AtMostOnce(Last(states).ledger)
    {
      var orphans := RunKeeps(p, terms, states, events, StillLive(s.ledger, payers));
      InvLedger(terms, Last(states), orphans);
    }
    forall states, events | Run(p, terms, states, events) ensures |states| > 0 {
      RunNonEmpty(p, terms, states, events);
    }
  }

  lemma {:induction false} RunNonEmpty(p: Params, terms: Terms, states: seq<State>, events: seq<Event>)
    requires Run(p, terms, states, events)
    ensures |states| > 0
  {
  }

  // ------------------------------------------------ an open address makes it unsafe

  lemma {:induction false} RunExtends(p: Params, terms: Terms, states: seq<State>, events: seq<Event>, e: Event,
                                      s': State)
    requires Run(p, terms, states, events) && |states| > 0
    requires Step(p, Last(states), e, s') && Hyp(p, terms, Last(states), e)
    ensures Run(p, terms, states + [s'], events + [e])
    ensures (states + [s'])[0] == states[0] && Last(states + [s']) == s'
  {
    hide Step, Hyp;
    var ss, es := states + [s'], events + [e];
    assert |states| == |events| + 1;
    assert DropLast(ss) == states && DropLast(es) == events;
    assert ss[|ss| - 2] == Last(states);
  }

  lemma {:induction false} FreshVout(ops: set<OutPoint>) returns (n: nat)
    ensures forall op :: op in ops ==> op.vout < n
    decreases |ops|
  {
    if ops == {} {
      n := 0;
    } else {
      var op :| op in ops;
      var m := FreshVout(ops - {op});
      n := if op.vout < m then m else op.vout + 1;
    }
  }

  function SwapOf(p: Params, terms: Terms, script: Script): Swap {
    Swap(p.network, terms(P2wsh(script)), script.initiator, script.redeemer, script.secretHash, script.waitBlock)
  }

  function ItemOf(p: Params, terms: Terms, script: Script): ActionItem {
    ActionItem(Initiate, SwapOf(p, terms, script), [])
  }

  function OrderOf(p: Params, terms: Terms, script: Script): Order {
    Order(Leg(EvmChain(""), Initiated, None, NoSecret),
          Leg(BitcoinChain, NotStarted, Some(SwapOf(p, terms, script)), NoSecret))
  }

  /** A wallet deposit that exactly funds a payment to the script at rate 1. */
  function Funding(p: Params, terms: Terms, script: Script, op: OutPoint): Utxo {
    Utxo(op, terms(P2wsh(script)) + p.vsize(1, [Payment(terms, script)], p.keyWeight), Bitcoin.Confirmed(0))
  }

  function Payment(terms: Terms, script: Script): TxOut { TxOut(P2wsh(script), terms(P2wsh(script))) }

  function PayTx(p: Params, terms: Terms, script: Script, op: OutPoint): Tx {
    PayFrom(p, Funding(p, terms, script, op), [Payment(terms, script)])
  }

  /** The executor chooses another initiate for an open address, and goes on with it. */
  lemma {:induction false} ChoosesAgain(p: Params, terms: Terms, script: Script, us: seq<Utxo>)
    requires !Blocks(us, terms(P2wsh(script)))
    ensures
      var o, item := OrderOf(p, terms, script), ItemOf(p, terms, script);
      && Chosen(NEW_BATCH, [o], [], map[P2wsh(script) := us]) == Choosing([], [item])
      && Decided(NEW_BATCH, [item], None) == Working([item])
  {
    var o, views, item := OrderOf(p, terms, script), map[P2wsh(script) := us], ItemOf(p, terms, script);
    assert SwapOf(p, terms, script).LockAddress() == P2wsh(script);
    assert PickOrder(BitcoinChain, {}, views, o) == Take(item);
    assert [] + [item] == [item];
  }

  lemma {:induction false} AgainHyp(p: Params, terms: Terms, s: State, script: Script, us: seq<Utxo>)
    requires LedgerOk(s.ledger) && !Closed(s.ledger, terms, P2wsh(script))
    requires HonestView(s.ledger, {}, us, P2wsh(script))
    requires s.phase == Choosing([OrderOf(p, terms, script)], [])
    ensures Hyp(p, terms, s, Look(map[P2wsh(script) := us], s.ledger.spent))
  {
    assert SwapOf(p, terms, script).LockAddress() == P2wsh(script);
    assert HonestView(s.ledger, s.ledger.spent, us, P2wsh(script));
  }

  /** The draft a single new initiate leads to. */
  lemma {:induction false} PayDraft(p: Params, terms: Terms, script: Script)
    ensures
      var d := Extend(p, EMPTY_RBF, [Gathered(ItemOf(p, terms, script), [])]);
      d.vin == [] && d.segwit == 0 && d.sigType == map[] && d.recipients == [Payment(terms, script)]
    ensures RawInputs([Gathered(ItemOf(p, terms, script), [])]) == []
  {
    InitiateDraft(p, ItemOf(p, terms, script));
    assert SwapOf(p, terms, script).LockAddress() == P2wsh(script);
  }

  /** A transaction that pays these outputs from one wallet output. */
  function PayFrom(p: Params, u: Utxo, outs: seq<TxOut>): Tx {
    Tx([TxIn(u.op, p.rbfSequence, KeyWitness(u.amount))], outs)
  }

  lemma {:induction false} ExactBuilds(p: Params, d: Rbf, u: Utxo)
    requires d.vin == [] && d.segwit == 0 && forall o :: o in d.recipients ==> o.amount >= 0
    requires u.amount == SumOuts(d.recipients) + p.vsize(1, d.recipients, p.keyWeight)
    ensures Builds(p, 1, d, [u], PayFrom(p, u, d.recipients))
  {
    var tx, pool := PayFrom(p, u, d.recipients), [u];
    assert VSize(p, d, tx) == p.vsize(1, d.recipients, p.keyWeight);
    hide SumOuts, VSize;
    FeeForIs(1, VSize(p, d, tx));
    assert DropLast(pool) == [] && SumUtxos(pool) == u.amount;
    hide SumUtxos, FeeFor;
    assert d.vin + pool[..1] == pool;
    assert Prevs(tx.ins) == Ops(pool);
    assert tx.outs[..|d.recipients|] == d.recipients;
  }

  lemma {:induction false} ExactSigned(p: Params, d: Rbf, u: Utxo)
    requires d.sigType == map[]
    ensures SignedBy(p, d, Amounts([u]), PayFrom(p, u, d.recipients))
  {
    assert DropLast([u]) == [] && Amounts([u]) == map[u.op := u.amount];
  }

  /** A first transaction of initiates only, exactly funded by one output, is all the wallet asks for. */
  lemma {:induction false} ExactAccepted(p: Params, g: seq<Gathered>, u: Utxo) returns (next: Rbf)
    requires
      var d := Extend(p, EMPTY_RBF, g);
      && d.vin == [] && d.segwit == 0 && d.sigType == map[] && RawInputs(g) == []
      && (forall o :: o in d.recipients ==> o.amount >= 0)
      && u.amount == SumOuts(d.recipients) + p.vsize(1, d.recipients, p.keyWeight)
    ensures Accepted(p, EMPTY_RBF, g, [u], 1, PayFrom(p, u, Extend(p, EMPTY_RBF, g).recipients), 1, next)
  {
    hide Extend, RawInputs, Builds, VSize, SumOuts, TotalFee, InputsOf, SignedBy, Amounts;
    var d := Extend(p, EMPTY_RBF, g);
    ExactBuilds(p, d, u);
    ExactSigned(p, d, u);
    assert [] + [] + [u] == [u];
    assert SignerTable(EMPTY_RBF, g, [u]) == Amounts([u]);
    next := Record(p, true, d, Amounts([u]), [u], PayFrom(p, u, d.recipients), 1);
  }

  lemma {:induction false} PayAccepted(p: Params, terms: Terms, script: Script, op: OutPoint) returns (next: Rbf)
    requires terms(P2wsh(script)) >= 0
    ensures Accepted(p, EMPTY_RBF, [Gathered(ItemOf(p, terms, script), [])], [Funding(p, terms, script, op)], 1,
                     PayTx(p, terms, script, op), 1, next)
  {
    var outs := [Payment(terms, script)];
    PayDraft(p, terms, script);
    assert DropLast(outs) == [] && SumOuts(outs) == terms(P2wsh(script));
    hide Extend, Accepted, RawInputs, SumOuts;
    next := ExactAccepted(p, [Gathered(ItemOf(p, terms, script), [])], Funding(p, terms, script, op));
  }

  // ------------------------------------------------ the run that pays twice

  lemma {:induction false} TermsNotNegative(terms: Terms, tx: Tx, i: nat)
    requires PaysTerms(terms, tx.outs) && i < |tx.outs| && tx.outs[i].to.P2wsh?
    ensures terms(tx.outs[i].to) >= 0
  {
  }

  lemma {:induction false} AliveIsSpendable(l: Ledger, terms: Terms, tx: Tx)
    requires TxOk(l, terms, tx) && !Dead(l, tx)
    ensures Spendable(l, tx)
  {
    forall i, j | 0 <= i < j < |tx.ins| ensures tx.ins[i].prev != tx.ins[j].prev {
      assert Prevs(tx.ins)[i] != Prevs(tx.ins)[j];
    }
  }

  /** The ledger with the deposit. */
  function Funded(p: Params, terms: Terms, script: Script, l: Ledger, op: OutPoint): Ledger {
    l.(outs := l.outs[op := TxOut(p.Home(), Funding(p, terms, script, op).amount)])
  }

  lemma {:induction false} StillHonest(l: Ledger, l': Ledger, us: seq<Utxo>, a: Address, op: OutPoint, out: TxOut)
    requires l' == l.(outs := l.outs[op := out]) && op !in l.outs && out.to != a
    requires HonestView(l, {}, us, a)
    ensures HonestView(l', {}, us, a)
  {
    forall o | o in l'.outs && l'.outs[o].to == a ensures o in Ops(ConfirmedOnly(us)) {
      assert o in l.outs;
    }
  }

  lemma {:induction false} OneOutputView(l: Ledger, a: Address, u: Utxo)
    requires u.op in l.outs && l.outs[u.op] == TxOut(a, u.amount) && u.amount >= 0
    ensures TrueView(l, [u], a)
  {
    assert Ops([u]) == [u.op];
  }

  lemma {:induction false} StillOpenToPay(l: Ledger, l': Ledger, terms: Terms, us: seq<Utxo>, a: Address,
                                          op: OutPoint, out: TxOut)
    requires l' == l.(outs := l.outs[op := out]) && op !in l.outs && out.to != a && l.spent <= l.outs.Keys
    requires HonestView(l, {}, us, a) && !Blocks(us, terms(a)) && !Closed(l, terms, a)
    ensures !Closed(l', terms, a)
  {
    StillHonest(l, l', us, a, op, out);
    hide HonestView, Blocks;
    assert !Guarded(l', terms, a);
    forall o | o in l'.outs && l'.outs[o].to == a ensures o !in l'.spent {
      assert o in l.outs;
    }
  }

  lemma {:induction false} FundedViews(p: Params, terms: Terms, script: Script, l: Ledger, op: OutPoint, us: seq<Utxo>)
    requires LedgerOk(l) && op !in l.outs && op.txid.Foreign? && terms(P2wsh(script)) >= 0
    requires HonestView(l, {}, us, P2wsh(script)) && !Closed(l, terms, P2wsh(script))
            && !Blocks(us, terms(P2wsh(script)))
    ensures
      var l' := Funded(p, terms, script, l, op);
      && LedgerOk(l') && Grows(l, l') && op !in l'.spent
      && HonestView(l', {}, us, P2wsh(script)) && !Closed(l', terms, P2wsh(script))
      && TrueViews(l', map[p.Home() := [Funding(p, terms, script, op)]])
  {
    var l', u := Funded(p, terms, script, l, op), Funding(p, terms, script, op);
    var out := TxOut(p.Home(), u.amount);
    DepositLedger(l, op, out);
    assert op !in l.spent;
    hide LedgerOk, Grows, Closed, HonestView, TrueView, Blocks;
    StillHonest(l, l', us, P2wsh(script), op, out);
    assert l.spent <= l.outs.Keys by { SpentExist(l); }
    StillOpenToPay(l, l', terms, us, P2wsh(script), op, out);
    OneOutputView(l', p.Home(), u);
  }

  lemma {:induction false} SpentExist(l: Ledger)
    requires LedgerOk(l)
    ensures l.spent <= l.outs.Keys
  {
  }

  lemma {:induction false} FirstInputsAre(p: Params, actions: seq<ActionItem>, g: seq<Gathered>, u: Utxo)
    requires u.status.Confirmed? && Gather(p, map[p.Home() := [u]], actions) == Ok(g)
    ensures Inputs(p, map[p.Home() := [u]], actions, EMPTY_RBF, Some(1)) == Ok((g, [u]))
  {
    hide Gather;
    assert DropLast([u]) == [];
    assert ConfirmedOnly([u]) == [] + [u] == [u];
    assert EMPTY_RBF.IsNil();
    assert p.Home() in map[p.Home() := [u]];
    assert Pool(p, map[p.Home() := [u]], EMPTY_RBF) == Ok([u]);
  }

  lemma {:induction false} PayInputs(p: Params, terms: Terms, script: Script, op: OutPoint)
    ensures
      var u, item := Funding(p, terms, script, op), ItemOf(p, terms, script);
      Inputs(p, map[p.Home() := [u]], [item], EMPTY_RBF, Some(1)) == Ok(([Gathered(item, [])], [u]))
  {
    var u, item := Funding(p, terms, script, op), ItemOf(p, terms, script);
    var views, x := map[p.Home() := [u]], Gathered(item, []);
    assert DropLast([item]) == [] && Last([item]) == item;
    assert GatherOne(p, views, item) == Ok(x);
    assert Gather(p, views, []) == Ok([]);
    assert [] + [x] == [x];
    assert Gather(p, views, [item]) == Ok([x]);
    FirstInputsAre(p, [item], [x], u);
  }

  /** From any state that forgot a live payment to an open HTLC there is a run that pays it twice. */
  lemma {:induction false} OpenIsUnsafe(p: Params, terms: Terms, s: State, k: nat, i: nat)
    requires NoRecord(terms, s) && Threatens(s.ledger, k, i)
    requires !Closed(s.ledger, terms, s.ledger.broadcast[k].outs[i].to)
    ensures !Safe(p, terms, s)
  {
    var l, tx := s.ledger, s.ledger.broadcast[k];
    var script := tx.outs[i].to.script;
    var a := P2wsh(script);
    TermsNotNegative(terms, tx, i);
    AliveIsSpendable(l, terms, tx);
    var us :| HonestView(l, {}, us, a) && !Blocks(us, terms(a));
    var n := FreshVout(l.outs.Keys);
    var op := OutPoint(Foreign("deposit"), n);
    assert op !in l.outs;
    hide HonestView, Blocks, Closed, LedgerOk, ConfirmedPaysTerms, TxOk, Unpaid, Run, Spendable, Paid;
    var states, events := DoublePayRun(p, terms, s, script, us, op, tx);
    PaidTwice(p, terms, script, l, op, us, tx, i);
    assert !AtMostOnce(Last(states).ledger);
  }

  lemma {:induction false} PaidTwice(p: Params, terms: Terms, script: Script, l: Ledger, op: OutPoint, us: seq<Utxo>,
                                     tx: Tx, i: nat)
    requires LedgerOk(l) && op !in l.outs && op.txid.Foreign? && terms(P2wsh(script)) >= 0 && Spendable(l, tx)
    requires HonestView(l, {}, us, P2wsh(script)) && !Closed(l, terms, P2wsh(script))
            && !Blocks(us, terms(P2wsh(script)))
    requires i < |tx.outs| && tx.outs[i].to == P2wsh(script)
    ensures
      var tx' := PayTx(p, terms, script, op);
      Paid(Funded(p, terms, script, l, op).Broadcast(tx').Confirm(tx).Confirm(tx').confirmed, P2wsh(script)) >= 2
  {
    PaidAfter(Funded(p, terms, script, l, op).Broadcast(PayTx(p, terms, script, op)), tx, P2wsh(script));
    PaidAfter(Funded(p, terms, script, l, op).Broadcast(PayTx(p, terms, script, op)).Confirm(tx),
              PayTx(p, terms, script, op), P2wsh(script));
    CountToZero(tx.outs, P2wsh(script));
    CountToZero(PayTx(p, terms, script, op).outs, P2wsh(script));
  }

  /** After the run so far, the wallet is funded and a poll chooses to initiate at an open address. */
  lemma {:induction false} ReadyToPay(p: Params, terms: Terms, states: seq<State>, events: seq<Event>, script: Script,
                                      us: seq<Utxo>, op: OutPoint)
    returns (ss: seq<State>, es: seq<Event>)
    requires Run(p, terms, states, events) && |states| > 0
    requires Last(states).store == NEW_BATCH && Last(states).phase == Idle && LedgerOk(Last(states).ledger)
    requires !Closed(Last(states).ledger, terms, P2wsh(script)) && terms(P2wsh(script)) >= 0
    requires HonestView(Last(states).ledger, {}, us, P2wsh(script)) && !Blocks(us, terms(P2wsh(script)))
    requires op !in Last(states).ledger.outs && op.txid.Foreign?
    ensures Run(p, terms, ss, es) && |ss| > 0 && ss[0] == states[0]
    ensures Last(ss) == State(Funded(p, terms, script, Last(states).ledger, op), NEW_BATCH,
                              Working([ItemOf(p, terms, script)]))
  {
    hide Run, Hyp, Closed, HonestView, Blocks, LedgerOk, Chosen, Decided;
    var s, o, item := Last(states), OrderOf(p, terms, script), ItemOf(p, terms, script);
    var l1, out := Funded(p, terms, script, s.ledger, op), TxOut(p.Home(), Funding(p, terms, script, op).amount);
    FundedViews(p, terms, script, s.ledger, op, us);
    ChoosesAgain(p, terms, script, us);
    var s1 := s.(ledger := l1);
    var s2 := s1.(phase := Choosing([o], []));
    var s3 := s1.(phase := Choosing([], [item]));
    var s4 := s1.(phase := Working([item]));
    var look := Look(map[P2wsh(script) := us], l1.spent);
    AgainHyp(p, terms, s2, script, us);
    EasyHyps(p, terms, s, op, out, s1, o, s3);
    RunExtends(p, terms, states, events, Deposit(op, out), s1);
    ss, es := states + [s1], events + [Deposit(op, out)];
    RunExtends(p, terms, ss, es, Begin([o]), s2);
    ss, es := ss + [s2], es + [Begin([o])];
    RunExtends(p, terms, ss, es, look, s3);
    ss, es := ss + [s3], es + [look];
    RunExtends(p, terms, ss, es, Decide(None), s4);
    ss, es := ss + [s4], es + [Decide(None)];
  }

  lemma {:induction false} EasyHyps(p: Params, terms: Terms, s: State, op: OutPoint, out: TxOut, s1: State, o: Order,
                                    s3: State)
    ensures Hyp(p, terms, s, Deposit(op, out)) && Hyp(p, terms, s1, Begin([o])) && Hyp(p, terms, s3, Decide(None))
  {
  }

  /** The call then pays the HTLC; the write of its record may be lost. */
  lemma {:induction false} PayNow(p: Params, terms: Terms, script: Script, s: State, op: OutPoint, stored: bool)
    returns (e: Event, s': State)
    requires s.store == NEW_BATCH && s.phase == Working([ItemOf(p, terms, script)])
    requires terms(P2wsh(script)) >= 0 && op !in s.ledger.spent
    requires op in s.ledger.outs && s.ledger.outs[op] == TxOut(p.Home(), Funding(p, terms, script, op).amount)
    requires TrueViews(s.ledger, map[p.Home() := [Funding(p, terms, script, op)]])
    ensures e.Sent? && e.stored == stored && Step(p, s, e, s') && (stored ==> Hyp(p, terms, s, e))
    ensures s'.ledger == s.ledger.Broadcast(PayTx(p, terms, script, op)) && s'.phase == Idle
    ensures s'.store.prevOrders == if stored then {BatchKey(Initiate, script.secretHash)} else {}
  {
    hide Accepted, Inputs, TrueViews, AllBarred;
    var u, item, tx := Funding(p, terms, script, op), ItemOf(p, terms, script), PayTx(p, terms, script, op);
    var next := PayAccepted(p, terms, script, op);
    PayInputs(p, terms, script, op);
    OneKey(item);
    e := Sent(map[p.Home() := [u]], 1, [Gathered(item, [])], [u], tx, 1, next, stored);
    s' := State(s.ledger.Broadcast(tx), if stored then BatchRecord({} + Keys([item]), next) else NEW_BATCH, Idle);
  }

  lemma {:induction false} OneKey(item: ActionItem)
    ensures Keys([item]) == {KeyOf(item)}
  {
    assert DropLast([item]) == [] && Last([item]) == item;
  }

  /** After the run so far, the wallet pays at an open address and keeps the record. */
  lemma {:induction false} PayOnce(p: Params, terms: Terms, states: seq<State>, events: seq<Event>, script: Script,
                                   us: seq<Utxo>, op: OutPoint)
    returns (ss: seq<State>, es: seq<Event>)
    requires Run(p, terms, states, events) && |states| > 0
    requires Last(states).store == NEW_BATCH && Last(states).phase == Idle && LedgerOk(Last(states).ledger)
    requires !Closed(Last(states).ledger, terms, P2wsh(script)) && terms(P2wsh(script)) >= 0
    requires HonestView(Last(states).ledger, {}, us, P2wsh(script)) && !Blocks(us, terms(P2wsh(script)))
    requires op !in Last(states).ledger.outs && op.txid.Foreign?
    ensures Run(p, terms, ss, es) && |ss| > 0 && ss[0] == states[0] && Last(ss).phase == Idle
    ensures
      Last(ss).ledger == Funded(p, terms, script, Last(states).ledger, op).Broadcast(PayTx(p, terms, script, op))
    ensures Last(ss).store.prevOrders == {BatchKey(Initiate, script.secretHash)}
  {
    hide Run, Hyp, Closed, HonestView, Blocks, LedgerOk, Step, TrueViews;
    FundedViews(p, terms, script, Last(states).ledger, op, us);
    ss, es := ReadyToPay(p, terms, states, events, script, us, op);
    var e, s' := PayNow(p, terms, script, Last(ss), op, true);
    RunExtends(p, terms, ss, es, e, s');
    ss, es := ss + [s'], es + [e];
  }

  lemma {:induction false} DoublePayRun(p: Params, terms: Terms, s: State, script: Script, us: seq<Utxo>,
                                        op: OutPoint, tx: Tx)
    returns (states: seq<State>, events: seq<Event>)
    requires s.store == NEW_BATCH && s.phase == Idle && LedgerOk(s.ledger) && terms(P2wsh(script)) >= 0
    requires !Closed(s.ledger, terms, P2wsh(script))
    requires HonestView(s.ledger, {}, us, P2wsh(script)) && !Blocks(us, terms(P2wsh(script)))
    requires op !in s.ledger.outs && op.txid.Foreign?
    requires tx in s.ledger.broadcast && Spendable(s.ledger, tx)
    ensures Run(p, terms, states, events) && |states| > 0 && states[0] == s
    ensures var tx' := PayTx(p, terms, script, op);
            Last(states).ledger == Funded(p, terms, script, s.ledger, op).Broadcast(tx').Confirm(tx).Confirm(tx')
  {
    hide Run, Hyp, Closed, HonestView, Blocks, Step, LedgerOk;
    StartRun(p, terms, s);
    states, events := PayOnce(p, terms, [s], [], script, us, op);
    var s3, tx' := Last(states), PayTx(p, terms, script, op);
    SpentExistNot(s.ledger, op);
    SpendableLater(s.ledger, s3.ledger, tx);
    SecondStillSpendable(s.ledger, s3.ledger, tx, tx');
    var s4 := s3.(ledger := s3.ledger.Confirm(tx));
    var s5 := s4.(ledger := s4.ledger.Confirm(tx'));
    ConfirmStep(p, terms, s3, tx);
    ConfirmStep(p, terms, s4, tx');
    RunExtends(p, terms, states, events, Confirm(tx), s4);
    states, events := states + [s4], events + [Confirm(tx)];
    RunExtends(p, terms, states, events, Confirm(tx'), s5);
    states, events := states + [s5], events + [Confirm(tx')];
  }

  lemma {:induction false} SpentExistNot(l: Ledger, op: OutPoint)
    requires LedgerOk(l) && op !in l.outs
    ensures op !in l.spent
  {
  }

  lemma {:induction false} ConfirmStep(p: Params, terms: Terms, s: State, tx: Tx)
    requires tx in s.ledger.broadcast && Spendable(s.ledger, tx)
    ensures Step(p, s, Confirm(tx), s.(ledger := s.ledger.Confirm(tx))) && Hyp(p, terms, s, Confirm(tx))
  {
  }

  lemma {:induction false} StartRun(p: Params, terms: Terms, s: State)
    ensures Run(p, terms, [s], [])
  {
  }

  lemma {:induction false} SpendableLater(l: Ledger, l': Ledger, tx: Tx)
    requires Spendable(l, tx) && l'.spent == l.spent && forall op :: op in l.outs ==> op in l'.outs
    ensures Spendable(l', tx)
  {
  }

  lemma {:induction false} SecondStillSpendable(l: Ledger, l': Ledger, tx: Tx, tx': Tx)
    requires Spendable(l, tx) && |tx'.ins| == 1
    requires tx'.ins[0].prev !in l.outs && tx'.ins[0].prev in l'.outs && tx'.ins[0].prev !in l'.spent
    ensures Spendable(l'.Confirm(tx), tx')
  {
    assert tx'.ins[0].prev in l'.Confirm(tx).outs;
  }

  // ------------------------------------------------ the exact condition

  /** Forgetting is safe exactly when every HTLC a live transaction pays is already barred: the
      ledger holds more than three outputs at it, or enough to pay it, or one that was claimed. */
  lemma {:induction false} ForgettingIsSafeExactly(p: Params, terms: Terms, s: State, payers: Orphans)
    requires ForgotChains(terms, s, payers)
    ensures Safe(p, terms, s) <==> AllBarred(s.ledger, terms)
  {
    hide Closed, Barred, Safe;
    if AllBarred(s.ledger, terms) {
      BarredIsSafe(p, terms, s, payers);
    } else {
      var a :| a in LiveHtlcs(s.ledger) && !Barred(s.ledger, terms, a);
      ClosedIsBarred(s.ledger, terms, a);
      var k, i :| 0 <= k < |s.ledger.broadcast| && 0 <= i < |s.ledger.broadcast[k].outs|
                  && Threatens(s.ledger, k, i) && s.ledger.broadcast[k].outs[i].to == a;
      OpenIsUnsafe(p, terms, s, k, i);
    }
  }

  /** A reset in any run, whatever caused it and however often the executor reset before: safe exactly
      under that condition. */
  lemma {:induction false} ResetIsSafeExactly(p: Params, terms: Terms, states: seq<State>, events: seq<Event>,
                                              e: Event, s': State)
    requires Run(p, terms, states, events) && Initial(states[0])
    requires e.Missing? && e.resetStored && Step(p, Last(states), e, s')
    ensures Safe(p, terms, s') <==> AllBarred(s'.ledger, terms)
  {
    InitialInv(terms, states[0]);
    assert s' == State(Last(states).ledger, NEW_BATCH, Idle);
    hide Run, Initial, Inv, Step, ForgotChains, AllBarred, Safe;
    var s := Last(states);
    var orphans := RunKeeps(p, terms, states, events, map[]);
    ForgottenByReset(terms, s, orphans);
    ForgettingIsSafeExactly(p, terms, s', Forgetting(s.ledger, orphans, Anchor(s.store.rbf)));
  }

  /** The first transaction of a chain whose record is lost, in any run: safe exactly under that
      condition. */
  lemma {:induction false} LostFirstRecordIsSafeExactly(p: Params, terms: Terms, states: seq<State>,
                                                        events: seq<Event>, e: Event, s': State)
    requires Run(p, terms, states, events) && Initial(states[0]) && Last(states).store == NEW_BATCH
    requires e.Sent? && !e.stored && Step(p, Last(states), e, s')
    ensures Safe(p, terms, s') <==> AllBarred(s'.ledger, terms)
  {
    InitialInv(terms, states[0]);
    hide Run, Initial, Inv, Step, ForgotChains, AllBarred, Safe;
    var orphans := RunKeeps(p, terms, states, events, map[]);
    ForgottenFirst(p, terms, Last(states), s', orphans, e);
    ForgettingIsSafeExactly(p, terms, s', Forgetting(s'.ledger, orphans, Anchor(e.next)));
  }

  /** What the source's comment claims of every reset, that the chain has confirmed or cannot any
      more, is enough in every run. */
  lemma {:induction false} SettledResetIsSafe(p: Params, terms: Terms, states: seq<State>, events: seq<Event>)
    requires Run(p, terms, states, events) && Initial(states[0])
    requires Last(states).store != NEW_BATCH && ChainSettled(Last(states))
    ensures AllBarred(Last(states).ledger, terms)
  {
    InitialInv(terms, states[0]);
    hide Run, Initial, Inv, AllBarred, ChainSettled;
    var orphans := RunKeeps(p, terms, states, events, map[]);
    SettledIsBarred(terms, Last(states), orphans);
  }

  // ------------------------------------------------ the condition can fail

  /** An empty ledger and a record of nothing. */
  const FRESH := State(Ledger(map[], {}, [], []), NEW_BATCH, Idle)

  lemma {:induction false} FreshIsOpen(terms: Terms, script: Script)
    requires terms(P2wsh(script)) > 0
    ensures Initial(FRESH) && LedgerOk(FRESH.ledger)
    ensures HonestView(FRESH.ledger, {}, [], P2wsh(script)) && !Blocks([], terms(P2wsh(script)))
    ensures !Closed(FRESH.ledger, terms, P2wsh(script))
  {
  }

  /** The payment is live, and its HTLC is open to the guard. */
  lemma {:induction false} PaymentIsLive(p: Params, terms: Terms, script: Script, op: OutPoint)
    requires !Closed(Funded(p, terms, script, FRESH.ledger, op), terms, P2wsh(script))
    requires LedgerOk(Funded(p, terms, script, FRESH.ledger, op))
    ensures
      var l := Funded(p, terms, script, FRESH.ledger, op).Broadcast(PayTx(p, terms, script, op));
      P2wsh(script) in LiveHtlcs(l) && !Barred(l, terms, P2wsh(script))
  {
    var l0 := Funded(p, terms, script, FRESH.ledger, op);
    var l := l0.Broadcast(PayTx(p, terms, script, op));
    assert Threatens(l, 0, 0);
    assert OutsAt(l, P2wsh(script)) == OutsAt(l0, P2wsh(script));
    SameWorth(l0, l, OutsAt(l, P2wsh(script)));
    ClosedIsBarred(l0, terms, P2wsh(script));
  }

  lemma {:induction false} SameWorth(l: Ledger, l': Ledger, ops: set<OutPoint>)
    requires l'.outs == l.outs && ops <= l.outs.Keys
    ensures Worth(l', ops) == Worth(l, ops)
    decreases |ops|
  {
    if ops == {} {
    } else {
      var op :| op in ops;
      WorthRemove(l, ops, op);
      WorthRemove(l', ops, op);
      SameWorth(l, l', ops - {op});
    }
  }

  /** The order that makes a poll redeem another swap. */
  function RedeemOrder(other: Swap): Order {
    Order(Leg(BitcoinChain, Initiated, Some(other), NoSecret), Leg(EvmChain(""), Redeemed, None, Hex([])))
  }

  lemma {:induction false} ChoosesRedeem(rec: BatchRecord, other: Swap)
    requires BatchKey(Redeem, other.secretHash) !in rec.prevOrders
    ensures
      var item := ActionItem(Redeem, other, []);
      && Chosen(rec, [RedeemOrder(other)], [], map[other.LockAddress() := []]) == Choosing([], [item])
      && Decided(rec, [item], None) == Working([item])
  {
    var o, views, item := RedeemOrder(other), map[other.LockAddress() := []], ActionItem(Redeem, other, []);
    assert PickOrder(BitcoinChain, rec.prevOrders, views, o) == Take(item);
    assert [] + [item] == [item];
  }

  lemma {:induction false} RedeemFindsNothing(p: Params, other: Swap, r: Rbf)
    requires other.network == p.network
    ensures Inputs(p, map[other.LockAddress() := []], [ActionItem(Redeem, other, [])], r, None)
            == Err(InputsMissingOrSpent)
  {
    var views, item := map[other.LockAddress() := []], ActionItem(Redeem, other, []);
    assert GatherOne(p, views, item) == Err(InputsMissingOrSpent);
    hide GatherOne;
    assert DropLast([item]) == [] && Last([item]) == item;
    assert Gather(p, views, []) == Ok([]);
  }

  lemma {:induction false} RedeemHyp(p: Params, terms: Terms, s: State, other: Swap)
    requires other.initiator != p.key && s.phase == Choosing([RedeemOrder(other)], [])
    requires forall op :: op in s.ledger.outs ==> s.ledger.outs[op].to == p.Home()
    ensures Hyp(p, terms, s, Look(map[other.LockAddress() := []], s.ledger.spent))
  {
    assert HonestView(s.ledger, s.ledger.spent, [], other.LockAddress());
  }

  /** A poll with a redeem whose confirmed outputs the indexer does not list is told "missing". */
  lemma {:induction false} RedeemGoesMissing(p: Params, terms: Terms, states: seq<State>, events: seq<Event>,
                                             other: Swap, key: BatchKey)
    returns (ss: seq<State>, es: seq<Event>, e: Event, s': State)
    requires Run(p, terms, states, events) && |states| > 0
    requires Last(states).phase == Idle && Last(states).store.prevOrders == {key} && key.action == Initiate
    requires other.network == p.network && other.initiator != p.key
    requires forall op :: op in Last(states).ledger.outs ==> Last(states).ledger.outs[op].to == p.Home()
    ensures Run(p, terms, ss, es) && |ss| > 0 && ss[0] == states[0]
    ensures e.Missing? && e.resetStored && Step(p, Last(ss), e, s') && s'.ledger == Last(states).ledger
  {
    hide Run, Hyp, Inputs, Chosen;
    var s, o, item, views := Last(states), RedeemOrder(other), ActionItem(Redeem, other, []),
        map[other.LockAddress() := []];
    ChoosesRedeem(s.store, other);
    RedeemFindsNothing(p, other, s.store.rbf);
    var s1 := s.(phase := Choosing([o], []));
    var s2 := s.(phase := Choosing([], [item]));
    var s3 := s.(phase := Working([item]));
    RedeemHyp(p, terms, s1, other);
    EasyHyps(p, terms, s, OutPoint(Foreign(""), 0), TxOut(p.Home(), 0), s, o, s2);
    RunExtends(p, terms, states, events, Begin([o]), s1);
    ss, es := states + [s1], events + [Begin([o])];
    RunExtends(p, terms, ss, es, Look(views, s.ledger.spent), s2);
    ss, es := ss + [s2], es + [Look(views, s.ledger.spent)];
    RunExtends(p, terms, ss, es, Decide(None), s3);
    ss, es := ss + [s3], es + [Decide(None)];
    e, s' := Missing(views, None, true), State(s.ledger, NEW_BATCH, Idle);
  }

  /** A reset without evidence can lead to a double payment: the executor initiates, then a redeem
      of another swap finds no confirmed outputs, and the record of the live chain is dropped. */
  lemma {:induction false} UnprovenResetPaysTwice(p: Params, terms: Terms, script: Script, other: Swap)
    returns (states: seq<State>, events: seq<Event>, e: Event, s': State)
    requires terms(P2wsh(script)) > 0 && other.network == p.network && other.initiator != p.key
    ensures Run(p, terms, states, events) && Initial(states[0])
    ensures e.Missing? && e.resetStored && Step(p, Last(states), e, s') && !Safe(p, terms, s')
  {
    hide Run, Hyp, Closed, HonestView, Blocks, Step, LedgerOk, Initial, LiveHtlcs, Safe, Barred;
    var op := OutPoint(Foreign("deposit"), 0);
    FreshIsOpen(terms, script);
    StartRun(p, terms, FRESH);
    states, events := PayOnce(p, terms, [FRESH], [], script, [], op);
    states, events, e, s' := RedeemGoesMissing(p, terms, states, events, other,
                                               BatchKey(Initiate, script.secretHash));
    FundedViews(p, terms, script, FRESH.ledger, op, []);
    PaymentIsLive(p, terms, script, op);
    ResetIsSafeExactly(p, terms, states, events, e, s');
  }

  /** So can losing the record of a chain's first transaction. */
  lemma {:induction false} LostFirstRecordPaysTwice(p: Params, terms: Terms, script: Script)
    returns (states: seq<State>, events: seq<Event>, e: Event, s': State)
    requires terms(P2wsh(script)) > 0
    ensures Run(p, terms, states, events) && Initial(states[0]) && Last(states).store == NEW_BATCH
    ensures e.Sent? && !e.stored && Step(p, Last(states), e, s') && !Safe(p, terms, s')
  {
    hide Run, Hyp, Closed, HonestView, Blocks, Step, LedgerOk, Initial, LiveHtlcs, Safe, Barred, TrueViews;
    var op := OutPoint(Foreign("deposit"), 0);
    FreshIsOpen(terms, script);
    StartRun(p, terms, FRESH);
    FundedViews(p, terms, script, FRESH.ledger, op, []);
    states, events := ReadyToPay(p, terms, [FRESH], [], script, [], op);
    e, s' := PayNow(p, terms, script, Last(states), op, false);
    PaymentIsLive(p, terms, script, op);
    LostFirstRecordIsSafeExactly(p, terms, states, events, e, s');
  }
}
