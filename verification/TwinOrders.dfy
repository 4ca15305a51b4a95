/** Why the orders of one poll must differ: the record is consulted as it was before the poll, so two
    orders for one HTLC are both chosen, and one transaction pays it twice. */
module TwinOrders {
  import opened Bitcoin
  import opened Ledgers
  import opened RbfPlan
  import opened SignPlan
  import opened Orders
  import opened Protocol
  import opened Safety
  import opened Forgotten

  /** The agreed payment, twice. */
  function Twins(terms: Terms, script: Script): seq<TxOut> { [Payment(terms, script), Payment(terms, script)] }

  /** The same initiate, gathered twice. */
  function TwinItems(p: Params, terms: Terms, script: Script): seq<Gathered> {
    [Gathered(ItemOf(p, terms, script), []), Gathered(ItemOf(p, terms, script), [])]
  }

  /** A wallet output that exactly funds both payments at rate 1. */
  function TwinFunding(p: Params, terms: Terms, script: Script): Utxo {
    Utxo(OutPoint(Foreign("deposit"), 0), 2 * terms(P2wsh(script)) + p.vsize(1, Twins(terms, script), p.keyWeight),
         Bitcoin.Confirmed(0))
  }

  function TwinTx(p: Params, terms: Terms, script: Script): Tx {
    PayFrom(p, TwinFunding(p, terms, script), Twins(terms, script))
  }

  function TwinLedger(p: Params, terms: Terms, script: Script): Ledger {
    var u := TwinFunding(p, terms, script);
    FRESH.ledger.(outs := map[u.op := TxOut(p.Home(), u.amount)])
  }

  lemma {:induction false} TwinDraft(p: Params, terms: Terms, script: Script)
    ensures
      var d := Extend(p, EMPTY_RBF, TwinItems(p, terms, script));
      d.vin == [] && d.segwit == 0 && d.sigType == map[] && d.recipients == Twins(terms, script)
    ensures RawInputs(TwinItems(p, terms, script)) == []
  {
    var x := Gathered(ItemOf(p, terms, script), []);
    var d, pay := Extend(p, EMPTY_RBF, [x]), Payment(terms, script);
    hide Extend, RawInputs;
    PayDraft(p, terms, script);
    assert [x] + [x] == TwinItems(p, terms, script);
    ExtendOne(p, EMPTY_RBF, [x], x);
    PlanOne(p, [x], x);
    assert Pays(x) == [pay] && TypesOf(x) == map[];
    assert [pay] + [pay] == Twins(terms, script);
    assert RawInputs([x]) == [] && [] + x.utxos == [];
  }

  lemma {:induction false} TwinAccepted(p: Params, terms: Terms, script: Script) returns (next: Rbf)
    requires terms(P2wsh(script)) >= 0
    ensures Accepted(p, EMPTY_RBF, TwinItems(p, terms, script), [TwinFunding(p, terms, script)], 1,
                     TwinTx(p, terms, script), 1, next)
  {
    var outs, pay := Twins(terms, script), Payment(terms, script);
    TwinDraft(p, terms, script);
    assert DropLast(outs) == [pay] && DropLast([pay]) == [] && SumOuts([]) == 0;
    assert SumOuts([pay]) == pay.amount;
    assert SumOuts(outs) == 2 * pay.amount;
    hide Extend, Accepted, RawInputs, SumOuts;
    next := ExactAccepted(p, TwinItems(p, terms, script), TwinFunding(p, terms, script));
  }

  lemma {:induction false} TwinInputs(p: Params, terms: Terms, script: Script)
    ensures
      var u, item := TwinFunding(p, terms, script), ItemOf(p, terms, script);
      Inputs(p, map[p.Home() := [u]], [item, item], EMPTY_RBF, Some(1)) == Ok((TwinItems(p, terms, script), [u]))
  {
    var u, item := TwinFunding(p, terms, script), ItemOf(p, terms, script);
    var views, x := map[p.Home() := [u]], Gathered(item, []);
    assert DropLast([item, item]) == [item] && DropLast([item]) == [];
    assert GatherOne(p, views, item) == Ok(x);
    assert Gather(p, views, []) == Ok([]);
    assert [] + [x] == [x];
    assert Gather(p, views, [item]) == Ok([x]);
    assert [x] + [x] == TwinItems(p, terms, script);
    assert Gather(p, views, [item, item]) == Ok(TwinItems(p, terms, script));
    FirstInputsAre(p, [item, item], TwinItems(p, terms, script), u);
  }

  /** The choice of both orders. */
  lemma {:induction false} TwinsChosen(p: Params, terms: Terms, script: Script)
    requires terms(P2wsh(script)) > 0
    ensures
      var o, item, views := OrderOf(p, terms, script), ItemOf(p, terms, script), map[P2wsh(script) := []];
      && Chosen(NEW_BATCH, [o, o], [], views) == Choosing([o], [item])
      && Chosen(NEW_BATCH, [o], [item], views) == Choosing([], [item, item])
      && Decided(NEW_BATCH, [item, item], None) == Working([item, item])
  {
    var o, views, item := OrderOf(p, terms, script), map[P2wsh(script) := []], ItemOf(p, terms, script);
    assert SwapOf(p, terms, script).LockAddress() == P2wsh(script);
    assert PickOrder(BitcoinChain, {}, views, o) == Take(item);
    assert [] + [item] == [item] && [item] + [item] == [item, item];
  }

  /** Every hypothesis but the one about distinct orders. */
  ghost predicate OtherHyps(p: Params, terms: Terms, states: seq<State>, events: seq<Event>) {
    |states| > |events| && forall i :: 0 <= i < |events| ==> events[i].Begin? || Hyp(p, terms, states[i], events[i])
  }

  lemma {:induction false} TwinHyps(p: Params, terms: Terms, script: Script, rest: seq<Order>, acts: seq<ActionItem>,
                                    e: Event, s: State)
    requires terms(P2wsh(script)) > 0 && s.ledger == TwinLedger(p, terms, script)
    ensures
      s.phase == Choosing([OrderOf(p, terms, script)] + rest, acts) ==>
        Hyp(p, terms, s, Look(map[P2wsh(script) := []], {}))
    ensures e.Sent? && e.stored && e.sentViews == map[p.Home() := [TwinFunding(p, terms, script)]] ==>
              Hyp(p, terms, s, e)
  {
    assert SwapOf(p, terms, script).LockAddress() == P2wsh(script);
    assert HonestView(s.ledger, {}, [], P2wsh(script));
    OneOutputView(s.ledger, p.Home(), TwinFunding(p, terms, script));
  }

  /** The HTLC of any such transaction is paid twice when it confirms. */
  lemma {:induction false} TwinPaid(p: Params, terms: Terms, script: Script)
    ensures Paid([TwinTx(p, terms, script)], P2wsh(script)) == 2
  {
    var tx, pay := TwinTx(p, terms, script), Payment(terms, script);
    assert DropLast([tx]) == [] && Last([tx]) == tx;
    assert DropLast(tx.outs) == [pay] && DropLast([pay]) == [] && CountTo([], P2wsh(script)) == 0;
    assert CountTo([pay], P2wsh(script)) == 1;
  }

  lemma {:induction false} Extended(p: Params, terms: Terms, states: seq<State>, events: seq<Event>, e: Event,
                                    s': State)
    returns (ss: seq<State>, es: seq<Event>)
    requires Path(p, states, events) && |states| > 0 && OtherHyps(p, terms, states, events)
    requires Step(p, Last(states), e, s') && (e.Begin? || Hyp(p, terms, Last(states), e))
    ensures ss == states + [s'] && es == events + [e]
    ensures Path(p, ss, es) && OtherHyps(p, terms, ss, es) && ss[0] == states[0] && Last(ss) == s'
  {
    hide Step, Hyp, Path;
    PathLength(p, states, events);
    PathExtends(p, states, events, e, s');
    ss, es := states + [s'], events + [e];
  }

  lemma {:induction false} NothingYet(p: Params, terms: Terms)
    ensures OtherHyps(p, terms, [FRESH], [])
  {
  }

  lemma {:induction false} PlainHyps(p: Params, terms: Terms, s: State, op: OutPoint, out: TxOut, tx: Tx)
    ensures Hyp(p, terms, s, Deposit(op, out)) && Hyp(p, terms, s, Decide(None)) && Hyp(p, terms, s, Event.Confirm(tx))
  {
  }

  /** The wallet is funded, and a poll chooses both orders. */
  lemma {:induction false} TwinsReady(p: Params, terms: Terms, script: Script)
    returns (states: seq<State>, events: seq<Event>)
    requires terms(P2wsh(script)) > 0
    ensures Path(p, states, events) && |states| > 0 && states[0] == FRESH && OtherHyps(p, terms, states, events)
    ensures
      var item := ItemOf(p, terms, script);
      Last(states) == State(TwinLedger(p, terms, script), NEW_BATCH, Working([item, item]))
  {
    hide Path, Hyp, OtherHyps, Chosen, Decided;
    var o, item, u := OrderOf(p, terms, script), ItemOf(p, terms, script), TwinFunding(p, terms, script);
    var look, out, tx := Look(map[P2wsh(script) := []], {}), TxOut(p.Home(), u.amount), TwinTx(p, terms, script);
    TwinsChosen(p, terms, script);
    var s1 := FRESH.(ledger := TwinLedger(p, terms, script));
    var s2 := s1.(phase := Choosing([o, o], []));
    var s3 := s1.(phase := Choosing([o], [item]));
    var s4 := s1.(phase := Choosing([], [item, item]));
    assert [o, o] == [o] + [o] && [o] == [o] + [];
    TwinHyps(p, terms, script, [o], [], look, s2);
    TwinHyps(p, terms, script, [], [item], look, s3);
    PlainHyps(p, terms, FRESH, u.op, out, tx);
    PlainHyps(p, terms, s4, u.op, out, tx);
    NoSteps(p, FRESH);
    NothingYet(p, terms);
    states, events := Extended(p, terms, [FRESH], [], Deposit(u.op, out), s1);
    states, events := Extended(p, terms, states, events, Begin([o, o]), s2);
    states, events := Extended(p, terms, states, events, look, s3);
    states, events := Extended(p, terms, states, events, look, s4);
    states, events := Extended(p, terms, states, events, Decide(None), s1.(phase := Working([item, item])));
  }

  /** A poll that is listed two orders for one HTLC pays it twice, although every other hypothesis
      holds. */
  lemma {:induction false} TwinOrdersPayTwice(p: Params, terms: Terms, script: Script)
    returns (states: seq<State>, events: seq<Event>)
    requires terms(P2wsh(script)) > 0
    ensures Path(p, states, events) && |states| > 0 && Initial(states[0]) && OtherHyps(p, terms, states, events)
    ensures !AtMostOnce(Last(states).ledger)
  {
    hide Path, Hyp, OtherHyps, Inputs, Accepted;
    states, events := TwinsReady(p, terms, script);
    var s, item, u, tx := Last(states), ItemOf(p, terms, script), TwinFunding(p, terms, script),
        TwinTx(p, terms, script);
    TwinInputs(p, terms, script);
    var next := TwinAccepted(p, terms, script);
    var sent := Sent(map[p.Home() := [u]], 1, TwinItems(p, terms, script), [u], tx, 1, next, true);
    var s1 := State(s.ledger.Broadcast(tx), BatchRecord({} + Keys([item, item]), next), Idle);
    TwinHyps(p, terms, script, [], [], sent, s);
    PlainHyps(p, terms, s1, u.op, TxOut(p.Home(), 0), tx);
    states, events := Extended(p, terms, states, events, sent, s1);
    states, events := Extended(p, terms, states, events, Event.Confirm(tx),
                               s1.(ledger := s1.ledger.Confirm(tx)));
    TwinPaid(p, terms, script);
    assert Last(states).ledger.confirmed == [tx];
  }
}
