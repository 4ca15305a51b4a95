/** The Bitcoin executor: the poll's decision and its execution, each one step of the protocol. */
module Executors {
  import opened Bitcoin
  import opened Ledgers
  import opened RbfPlan
  import opened RbfOptions
  import opened Wallets
  import opened Orders
  import opened Protocol

  /** The batch record as the poll works on it. */
  class BatchData {
    var prevOrders: set<BatchKey>
    var rbf: OptionRBF

    constructor (r: BatchRecord)
      ensures View() == r && fresh(rbf.Repr())
    {
      var options := LoadOptions(r.rbf);
      prevOrders, rbf := r.prevOrders, options;
    }

    function View(): BatchRecord
      reads this, rbf.Repr()
    {
      BatchRecord(prevOrders, rbf.View())
    }

    predicate HasAction(item: ActionItem)
      reads this
    {
      KeyOf(item) in prevOrders
    }

    method AddExecuteAction(item: ActionItem)
      modifies this`prevOrders
      ensures prevOrders == old(prevOrders) + {KeyOf(item)}
    {
      prevOrders := prevOrders + {KeyOf(item)};
    }
  }

  /** Whether a swap is paid for on chain, and the height of its last confirmed payment. */
  method InitiatedCheck(client: Indexer, s: Swap) returns (initiated: Option<bool>, height: nat)
    ensures initiated == InitiatedAt(client.views, s)
    ensures initiated.Some? ==>
      var us := client.views[s.LockAddress()];
      && (forall i :: 0 <= i < |us| && us[i].status.Confirmed? ==> us[i].status.height <= height)
      && (height == 0 || exists i :: 0 <= i < |us| && us[i].status == Bitcoin.Confirmed(height))
  {
    height := 0;
    var r := client.GetUTXOs(s.LockAddress());
    if r.Err? {
      return None, 0;
    }
    var utxos := r.value;
    if |utxos| > 3 {
      return None, 0;
    }
    var total := 0;
    for i := 0 to |utxos|
      invariant total == ConfirmedTotal(utxos[..i])
      invariant forall k :: 0 <= k < i && utxos[k].status.Confirmed? ==> utxos[k].status.height <= height
      invariant height == 0 || exists k :: 0 <= k < i && utxos[k].status == Bitcoin.Confirmed(height)
    {
      assert DropLast(utxos[..i + 1]) == utxos[..i];
      if utxos[i].status.Confirmed? {
        total := total + utxos[i].amount;
        if utxos[i].status.height > height {
          height := utxos[i].status.height;
        }
      }
    }
    assert utxos[..|utxos|] == utxos;
    return Some(total >= s.amount), height;
  }

  lemma {:induction false} SelectPrefixAborts(chain: Chain, prev: set<BatchKey>, views: Views, orders: seq<Order>,
                                              i: nat)
    requires i <= |orders| && SelectActions(chain, prev, views, orders[..i]) == None
    ensures SelectActions(chain, prev, views, orders) == None
    decreases |orders| - i
  {
    if i < |orders| {
      assert DropLast(orders[..i + 1]) == orders[..i];
      SelectPrefixAborts(chain, prev, views, orders, i + 1);
    } else {
      assert orders[..i] == orders;
    }
  }

  class BitcoinExecutor {
    const p: Params
    const client: Indexer
    var store: BatchRecord                           // persisted by value

    constructor (p: Params, client: Indexer)
      ensures this.p == p && this.client == client && store == NEW_BATCH
    {
      this.p, this.client, store := p, client, NEW_BATCH;
    }

    /** The executor between polls, together with the ledger it acts on. */
    ghost function Now(phase: Phase): State
      reads this, client
    {
      State(client.ledger, store, phase)
    }

    /** A read may fail. */
    method GetBatchData(answers: bool) returns (bd: Option<BatchData>)
      ensures bd.Some? <==> answers
      ensures bd.Some? ==> fresh(bd.value) && fresh(bd.value.rbf.Repr()) && bd.value.View() == store
    {
      if !answers {
        return None;
      }
      var b := new BatchData(store);
      return Some(b);
    }

    /** A write may be lost. */
    method StoreBatchData(bd: BatchData, kept: bool)
      modifies this`store
      ensures store == if kept then bd.View() else old(store)
    {
      if kept {
        store := bd.View();
      }
    }

    /** What one order adds to the batch. */
    method Consider(bd: BatchData, order: Order) returns (pick: Pick)
      ensures pick == PickOrder(BitcoinChain, bd.prevOrders, client.views, order)
    {
      var leg: Leg;
      var action: Action;
      if order.follower.chain == BitcoinChain {
        leg := order.follower;
        if order.initiator.status == Initiated && order.follower.status == NotStarted {
          action := Initiate;
        } else if order.follower.status == Expired {
          action := Refund;
        } else {
          return Skip;
        }
      } else if order.initiator.chain == BitcoinChain {
        if order.follower.status in {Redeemed, RedeemDetected} && order.initiator.status == Initiated {
          action := Redeem;
          leg := order.initiator.(secret := order.follower.secret);
        } else {
          return Skip;
        }
      } else {
        return Skip;
      }
      if leg.swap == None {
        return Skip;
      }
      var secret: Bytes := [];
      if action == Redeem {
        var decoded := DecodeSecret(leg.secret);
        if decoded == None {
          return Abort;
        }
        secret := decoded.value;
      }
      var item := ActionItem(action, leg.swap.value, secret);
      if bd.HasAction(item) {
        return Skip;
      }
      if action == Initiate {
        var initiated, _ := InitiatedCheck(client, item.swap);
        if initiated == None {
          return Skip;
        }
        if initiated.value {
          return Skip;
        }
      }
      return Take(item);
    }

    /** The new actions of a poll; a secret that cannot be decoded gives up the whole poll. */
    method CollectNew(bd: BatchData, orders: seq<Order>) returns (newActions: Option<seq<ActionItem>>)
      ensures newActions == SelectActions(BitcoinChain, bd.prevOrders, client.views, orders)
      ensures newActions == None <==>
                exists j ::
                  0 <= j < |orders| && PickOrder(BitcoinChain, bd.prevOrders, client.views, orders[j]) == Abort
      ensures newActions.Some? ==>
                exists at :: TakenAt(BitcoinChain, bd.prevOrders, client.views, orders, newActions.value, at)
    {
      AbortsExactly(BitcoinChain, bd.prevOrders, client.views, orders);
      hide PickOrder;
      var actions: seq<ActionItem> := [];
      for i := 0 to |orders|
        invariant SelectActions(BitcoinChain, bd.prevOrders, client.views, orders[..i]) == Some(actions)
      {
        assert DropLast(orders[..i + 1]) == orders[..i];
        var pick := Consider(bd, orders[i]);
        match pick {
          case Skip =>
          case Abort =>
            SelectPrefixAborts(BitcoinChain, bd.prevOrders, client.views, orders, i + 1);
            return None;
          case Take(item) =>
            actions := actions + [item];
        }
      }
      assert orders[..|orders|] == orders;
      ghost var at := SelectedExactly(BitcoinChain, bd.prevOrders, client.views, orders);
      return Some(actions);
    }

    /** The first half of a poll: read the record and decide whether there is anything to send. */
    method Decide(orders: seq<Order>, lowest: Option<real>, answers: bool)
      returns (work: Option<(BatchData, seq<ActionItem>)>)
      ensures work.Some? <==> answers && Start(store, orders, client.views, lowest).Working?
      ensures work.Some? ==>
                && fresh(work.value.0) && fresh(work.value.0.rbf.Repr()) && work.value.0.View() == store
                && Start(store, orders, client.views, lowest) == Working(work.value.1)
      ensures work.Some? ==>
                exists at :: TakenAt(BitcoinChain, store.prevOrders, client.views, orders, work.value.1, at)
      ensures (exists j :: 0 <= j < |orders|
                           && PickOrder(BitcoinChain, store.prevOrders, client.views, orders[j]) == Abort) ==>
                work == None
      ensures answers && TakenAt(BitcoinChain, store.prevOrders, client.views, orders, [], []) ==>
                (work.Some? <==> store.prevOrders != {} && lowest.Some?
                                 && store.rbf.feeRate as real < lowest.value + 1.0)
      ensures work.Some? && work.value.1 == [] ==>
                store.prevOrders != {} && lowest.Some? && store.rbf.feeRate as real < lowest.value + 1.0
    {
      hide SelectActions, PickOrder, TakenAt;
      if TakenAt(BitcoinChain, store.prevOrders, client.views, orders, [], []) {
        NothingSelected(BitcoinChain, store.prevOrders, client.views, orders);
      }
      var read := GetBatchData(answers);
      if read.None? {
        return None;
      }
      var bd := read.value;
      var newActions := CollectNew(bd, orders);
      if newActions.None? {
        return None;
      }
      if |newActions.value| == 0 {
        if bd.prevOrders == {} || lowest == None {
          return None;
        }
        if bd.rbf.feeRate as real >= lowest.value + 1.0 {
          return None;
        }
      }
      return Some((bd, newActions.value));
    }

    method AddExecuteActions(bd: BatchData, newActions: seq<ActionItem>)
      modifies bd`prevOrders
      ensures bd.prevOrders == old(bd.prevOrders) + Keys(newActions)
    {
      for i := 0 to |newActions|
        invariant bd.prevOrders == old(bd.prevOrders) + Keys(newActions[..i])
      {
        assert DropLast(newActions[..i + 1]) == newActions[..i];
        bd.AddExecuteAction(newActions[i]);
      }
      assert newActions[..|newActions|] == newActions;
    }

    /** Lists the executed actions, takes over the new options and stores the record. */
    method Update(bd: BatchData, newActions: seq<ActionItem>, newRbf: OptionRBF, kept: bool)
      requires bd !in newRbf.Repr() && this !in newRbf.Repr()
      modifies this`store, bd
      ensures store == if kept then BatchRecord(old(bd.prevOrders) + Keys(newActions), old(newRbf.View()))
                       else old(store)
    {
      AddExecuteActions(bd, newActions);
      bd.rbf := newRbf;
      StoreBatchData(bd, kept);
    }

    /** Resets the stored record. */
    method Reset(kept: bool)
      modifies this`store
      ensures store == if kept then NEW_BATCH else old(store)
    {
      var empty := new BatchData(NEW_BATCH);
      StoreBatchData(empty, kept);
    }

    /** The second half: submit, and update or reset the record. The whole effect is one step of
        the protocol. A transaction the node took although the call failed counts as sent with its
        record lost. */
    method Execute(bd: BatchData, newActions: seq<ActionItem>, est: Option<Pos>, kept: bool)
      returns (ghost e: Event, ghost rate: int)
      requires bd.View() == store && bd !in bd.rbf.Repr() && this !in bd.rbf.Repr()
      modifies this`store, client`ledger, bd
      ensures Step(p, old(Now(Working(newActions))), e, Now(Idle))
      ensures GetsTo(p, client.views, newActions, old(store.rbf), est, rate)
      ensures forall err :: StopsWith(p, client.views, newActions, old(store.rbf), est, err) ==>
                && client.ledger == old(client.ledger)
                && store == if err == InputsMissingOrSpent && kept then NEW_BATCH else old(store)
      ensures match e
              case Sent(views, estimate, _, _, tx, r, _, stored) =>
                && views == client.views && est == Some(estimate) && client.accepts(tx)
                && stored == (kept && !client.loses(tx)) && r == rate
              case Missing(views, estimate, stored) => views == client.views && estimate == est && stored == kept
              case Failed => AnswersFailed(p, old(client.Peer()), old(store.rbf), newActions, client.views, est)
              case _ => false
    {
      hide Answer, Accepted, Inputs, Start, AnswersMissing, AnswersFailed, Spendable, FeesAgree, Step, Extend, Max,
        StopsWith, FailsFirst, AllGather, RefusedByNode, LostFirstInputs, StartRate, Tried, GetsTo, Built,
        OptionRBF.View, KeepsPool, SignerTable;
      ghost var before, peer := Now(Working(newActions)), client.Peer();
      var tx, newRbf, err;
      ghost var g, pool, sent;
      tx, newRbf, err, g, pool, rate, sent := ExecuteRbf(p, client, newActions, bd.rbf, est);
      AnswerGetsTo(p, peer, client.ledger, newActions, client.views, store.rbf, est, g, pool, sent, rate,
                   newRbf.View(), err);
      if err.Some? {
        if sent.Some? {
          e := LostEvent(p, before, peer, client.ledger, newActions, client.views, est, g, pool, sent, rate,
                         newRbf.View(), err);
        } else {
          ErrorStep(p, before, peer, client.ledger, newActions, client.views, est, g, pool, rate, newRbf.View(), err);
          if err.value == InputsMissingOrSpent {
            e := Missing(client.views, est, kept);
          } else {
            e := Failed;
          }
          ErrorIsStep(p, before, e, State(client.ledger, if e.Missing? && kept then NEW_BATCH else store, Idle));
        }
        if err.value == InputsMissingOrSpent {
          Reset(kept);
        }
        return;
      }
      ghost var next := newRbf.View();
      e := SentEvent(p, before, peer, client.ledger, newActions, client.views, est, g, pool, sent, rate,
          next, err, kept);
      Update(bd, newActions, newRbf, kept);
    }

    /** One whole poll, as steps of the protocol: the start, a look at each order, the decision, and
        the call of the wallet if there is one. No step when the orders or the record cannot be read;
        `asked` counts the steps before the call. */
    method Poll(orders: Option<seq<Order>>, lowest: Option<real>, est: Option<Pos>, answers: bool, kept: bool,
                ghost claimed: set<OutPoint>)
      returns (ghost states: seq<State>, ghost events: seq<Event>, ghost asked: nat, ghost rate: int)
      modifies this`store, client`ledger
      ensures Path(p, states, events) && |states| > 0 && states[0] == old(Now(Idle)) && Last(states) == Now(Idle)
      ensures events == [] <==> orders.None? || !answers
      ensures events != [] ==>
                var start := Start(old(store), orders.value, client.views, lowest);
                && |events| == (if start.Working? then asked + 1 else asked)
                && Asks(orders.value, client.views, claimed, lowest, events[..asked])
                && (start.Working? ==> states[asked] == old(Now(Start(store, orders.value, client.views, lowest))))
      ensures events != [] && Start(old(store), orders.value, client.views, lowest).Working? ==>
                var actions := Start(old(store), orders.value, client.views, lowest).actions;
                && GetsTo(p, client.views, actions, old(store.rbf), est, rate)
                && (forall err :: StopsWith(p, client.views, actions, old(store.rbf), est, err) ==>
                      && client.ledger == old(client.ledger)
                      && store == if err == InputsMissingOrSpent && kept then NEW_BATCH else old(store))
                && match Last(events)
                   case Sent(_, estimate, _, _, tx, r, _, stored) =>
                     est == Some(estimate) && stored == (kept && !client.loses(tx)) && r == rate
                   case Missing(_, _, stored) => stored == kept
                   case Failed => AnswersFailed(p, old(client.Peer()), old(store.rbf), actions, client.views, est)
                   case _ => false
    {
      hide Start, AnswersMissing, AnswersFailed, Accepted, Inputs, GetsTo, Step, Path, Asks, StopsWith, TakenAt,
        PickOrder, OptionRBF.View;
      states, events, asked, rate := [Now(Idle)], [], 0, 0;
      if orders.None? {
        NoSteps(p, Now(Idle));
        return;
      }
      var work := Decide(orders.value, lowest, answers);
      if !answers {
        NoSteps(p, Now(Idle));
        return;
      }
      states, events := DecisionPath(p, Now(Idle), orders.value, client.views, claimed, lowest);
      asked := |events|;
      assert events[..asked] == events;
      assert states[asked] == Now(Start(store, orders.value, client.views, lowest));
      if work.Some? {
        ghost var call;
        call, rate := Execute(work.value.0, work.value.1, est, kept);
        PathExtends(p, states, events, call, Now(Idle));
        states, events := states + [Now(Idle)], events + [call];
        assert events[..asked] == events[..|events| - 1];
      }
    }
  }

  // ------------------------------------------------ a poll as steps of the protocol

  /** What a poll that sees one state of the indexer goes on to do with the record it read. */
  function Start(rec: BatchRecord, orders: seq<Order>, views: Views, lowest: Option<real>): (next: Phase)
    ensures !next.Choosing?
  {
    match SelectActions(BitcoinChain, rec.prevOrders, views, orders)
    case None => Idle
    case Some(actions) => Decided(rec, actions, lowest)
  }

  /** The start of a poll, its looks at the orders, and its decision, as far as it gets. */
  ghost predicate Asks(orders: seq<Order>, views: Views, claimed: set<OutPoint>, lowest: Option<real>,
                       events: seq<Event>) {
    && 0 < |events| <= |orders| + 2 && events[0] == Begin(orders)
    && forall i :: 1 <= i < |events| ==>
         events[i] == if i <= |orders| then Look(views, claimed) else Event.Decide(lowest)
  }

  /** While no secret fails to decode, the looks select what the specification selects. */
  lemma {:induction false} LooksPath(p: Params, s: State, orders: seq<Order>, views: Views, claimed: set<OutPoint>,
                                     lowest: Option<real>, n: nat)
    returns (states: seq<State>, events: seq<Event>)
    requires s.phase == Idle && n <= |orders|
    requires SelectActions(BitcoinChain, s.store.prevOrders, views, orders[..n]).Some?
    ensures Path(p, states, events) && |states| > 0 && states[0] == s
    ensures Asks(orders, views, claimed, lowest, events) && |events| == n + 1
    ensures Last(states) == s.(phase :=
              Choosing(orders[n..], SelectActions(BitcoinChain, s.store.prevOrders, views, orders[..n]).value))
  {
    if n == 0 {
      NoSteps(p, s);
      assert orders[0..] == orders;
      var s' := s.(phase := Choosing(orders, []));
      PathExtends(p, [s], [], Begin(orders), s');
      states, events := [s] + [s'], [] + [Begin(orders)];
    } else {
      hide PickOrder, SelectActions, Chosen, Path, Step, Asks;
      SelectsOneMore(s.store.prevOrders, views, orders, n);
      states, events := LooksPath(p, s, orders, views, claimed, lowest, n - 1);
      var before := SelectActions(BitcoinChain, s.store.prevOrders, views, orders[..n - 1]).value;
      var after := SelectActions(BitcoinChain, s.store.prevOrders, views, orders[..n]).value;
      var s' := s.(phase := Choosing(orders[n..], after));
      LookStep(p, s, orders, views, claimed, before, after, n);
      PathExtends(p, states, events, Look(views, claimed), s');
      AsksMore(orders, views, claimed, lowest, events);
      states, events := states + [s'], events + [Look(views, claimed)];
    }
  }

  /** What one more order adds to the selection. */
  lemma {:induction false} SelectsOneMore(prev: set<BatchKey>, views: Views, orders: seq<Order>, n: nat)
    requires 0 < n <= |orders| && SelectActions(BitcoinChain, prev, views, orders[..n]).Some?
    ensures SelectActions(BitcoinChain, prev, views, orders[..n - 1]).Some?
    ensures
      var before := SelectActions(BitcoinChain, prev, views, orders[..n - 1]).value;
      var after := SelectActions(BitcoinChain, prev, views, orders[..n]).value;
      match PickOrder(BitcoinChain, prev, views, orders[n - 1])
      case Skip => after == before
      case Take(item) => after == before + [item]
      case Abort => false
  {
    hide PickOrder;
    assert DropLast(orders[..n]) == orders[..n - 1] && Last(orders[..n]) == orders[n - 1];
  }

  /** One look is one step. */
  lemma {:induction false} LookStep(p: Params, s: State, orders: seq<Order>, views: Views, claimed: set<OutPoint>,
                                    before: seq<ActionItem>, after: seq<ActionItem>, n: nat)
    requires 0 < n <= |orders|
    requires match PickOrder(BitcoinChain, s.store.prevOrders, views, orders[n - 1])
             case Skip => after == before
             case Take(item) => after == before + [item]
             case Abort => false
    ensures Step(p, s.(phase := Choosing(orders[n - 1..], before)), Look(views, claimed),
                 s.(phase := Choosing(orders[n..], after)))
  {
    hide PickOrder;
    assert orders[n - 1..][0] == orders[n - 1] && orders[n - 1..][1..] == orders[n..];
  }

  lemma {:induction false} AsksMore(orders: seq<Order>, views: Views, claimed: set<OutPoint>, lowest: Option<real>,
                                    events: seq<Event>)
    requires Asks(orders, views, claimed, lowest, events) && |events| <= |orders|
    ensures Asks(orders, views, claimed, lowest, events + [Look(views, claimed)])
  {
  }

  /** The last prefix that selects something, when the whole does not. */
  lemma {:induction false} FirstAbort(prev: set<BatchKey>, views: Views, orders: seq<Order>, n: nat) returns (k: nat)
    requires n <= |orders| && SelectActions(BitcoinChain, prev, views, orders[..n]) == None
    ensures k < n && SelectActions(BitcoinChain, prev, views, orders[..k]).Some?
    ensures PickOrder(BitcoinChain, prev, views, orders[k]) == Abort
  {
    hide PickOrder;
    assert n > 0;
    assert DropLast(orders[..n]) == orders[..n - 1] && Last(orders[..n]) == orders[n - 1];
    if SelectActions(BitcoinChain, prev, views, orders[..n - 1]) == None {
      k := FirstAbort(prev, views, orders, n - 1);
    } else {
      k := n - 1;
    }
  }

  /** A poll up to its decision, as steps of the protocol. */
  lemma {:induction false} DecisionPath(p: Params, s: State, orders: seq<Order>, views: Views,
                                        claimed: set<OutPoint>, lowest: Option<real>)
    returns (states: seq<State>, events: seq<Event>)
    requires s.phase == Idle
    ensures Path(p, states, events) && |states| == |events| + 1 && states[0] == s && events != []
    ensures Asks(orders, views, claimed, lowest, events)
    ensures Last(states) == s.(phase := Start(s.store, orders, views, lowest))
  {
    hide PickOrder, Path, Decided;
    var n, e, after := |orders|, Event.Decide(lowest), Start(s.store, orders, views, lowest);
    assert orders[..n] == orders;
    if SelectActions(BitcoinChain, s.store.prevOrders, views, orders) == None {
      n := FirstAbort(s.store.prevOrders, views, orders, n);
      e := Look(views, claimed);
      assert orders[n..][0] == orders[n];
    }
    states, events := LooksPath(p, s, orders, views, claimed, lowest, n);
    PathExtends(p, states, events, e, s.(phase := after));
    states, events := states + [s.(phase := after)], events + [e];
    PathLength(p, states, events);
  }

  // ------------------------------------------------ the wallet's answers as steps

  /** The wallet answers with an error that leaves the record alone. */
  ghost predicate AnswersFailed(p: Params, node: Node, r: Rbf, actions: seq<ActionItem>, views: Views,
                                est: Option<Pos>) {
    match Inputs(p, views, actions, r, est)
    case Err(e) => e != InputsMissingOrSpent
    case Ok((g, pool)) =>
      || TooExpensive(p, r, g, pool, est.value)
      || CannotSign(p, r, g, pool)
      || AgainstPolicy(p, node, r, g, pool, est.value)
  }

  /** It does so exactly when something other than "missing or spent" stops the call before it builds, or
      when it cannot pay, cannot sign, or the node does not relay a transaction with good inputs. */
  lemma {:induction false} FailedExactly(p: Params, node: Node, r: Rbf, actions: seq<ActionItem>, views: Views,
                                         est: Option<Pos>)
    ensures AnswersFailed(p, node, r, actions, views, est)
       <==> || (exists e :: e != InputsMissingOrSpent && StopsWith(p, views, actions, r, est, e))
            || (match Inputs(p, views, actions, r, est)
                case Err(_) => false
                case Ok((g, pool)) =>
                  || TooExpensive(p, r, g, pool, est.value)
                  || CannotSign(p, r, g, pool)
                  || AgainstPolicy(p, node, r, g, pool, est.value))
  {
    hide Inputs, TooExpensive, CannotSign, AgainstPolicy, StopsWith;
    InputsExactly(p, views, actions, r, est);
  }

  /** A call, however it ends, gets to the rate it reports. */
  lemma {:induction false} AnswerGetsTo(p: Params, node: Node, after: Ledger, actions: seq<ActionItem>,
                                        views: Views, r: Rbf, est: Option<Pos>, g: seq<Gathered>, pool: seq<Utxo>,
                                        sent: Option<Tx>, rate: int, next: Rbf, err: Option<Error>)
    requires match Inputs(p, views, actions, r, est)
             case Err(_) => true
             case Ok(found) =>
               (g, pool) == found && Answer(p, node, after, r, g, pool, est.value, sent, rate, next, err)
    ensures GetsTo(p, views, actions, r, est, rate)
  {
    hide Inputs, Tried, Built, Accepted, Unbuilt, Spendable;
  }

  /** A successful call is one step. */
  lemma {:induction false} SentEvent(p: Params, s: State, node: Node, after: Ledger, actions: seq<ActionItem>,
                                     views: Views, est: Option<Pos>, g: seq<Gathered>,
                                     pool: seq<Utxo>, sent: Option<Tx>, rate: int, next: Rbf, err: Option<Error>,
                                     kept: bool)
    returns (e: Event)
    requires err.None? && node.ledger == s.ledger && s.phase == Working(actions)
    requires Inputs(p, views, actions, s.store.rbf, est) == Ok((g, pool))
    requires Answer(p, node, after, s.store.rbf, g, pool, est.value, sent, rate, next, err)
    ensures sent.Some? && e == Sent(views, est.value, g, pool, sent.value, rate, next, kept)
    ensures node.accepts(sent.value) && !node.loses(sent.value)
    ensures var store := if kept then BatchRecord(s.store.prevOrders + Keys(actions), next) else s.store;
            Step(p, s, e, State(after, store, Idle))
  {
    hide Inputs, Built, Tried, Accepted, Spendable;
    e := Sent(views, est.value, g, pool, sent.value, rate, next, kept);
  }

  /** A call that fails although the node took the transaction is one step, whose record is lost. */
  lemma {:induction false} LostEvent(p: Params, s: State, node: Node, after: Ledger, actions: seq<ActionItem>,
                                     views: Views, est: Option<Pos>, g: seq<Gathered>,
                                     pool: seq<Utxo>, sent: Option<Tx>, rate: int, next: Rbf, err: Option<Error>)
    returns (e: Event)
    requires err.Some? && sent.Some? && node.ledger == s.ledger && s.phase == Working(actions)
    requires Inputs(p, views, actions, s.store.rbf, est) == Ok((g, pool))
    requires Answer(p, node, after, s.store.rbf, g, pool, est.value, sent, rate, next, err)
    ensures err.value == SubmitFailed
    ensures e.Sent? && e.sentViews == views && est == Some(e.est) && !e.stored
    ensures e.g == g && e.pool == pool && e.tx == sent.value && e.rate == rate
    ensures node.accepts(e.tx) && node.loses(e.tx)
    ensures Step(p, s, e, State(after, s.store, Idle))
  {
    hide Inputs, Built, Tried, Spendable, Accepted;
    var recorded := Recordable(p, s.store.rbf, g, pool, est.value, sent.value, rate);
    e := Sent(views, est.value, g, pool, sent.value, rate, recorded, false);
    SentIsStep(p, s, e, State(after, s.store, Idle));
  }

  /** What the options would have become. */
  lemma {:induction false} Recordable(p: Params, r: Rbf, g: seq<Gathered>, pool: seq<Utxo>, est: int, tx: Tx, rate: int)
    returns (next: Rbf)
    requires Built(p, r, g, pool, est, tx, rate)
    ensures Accepted(p, r, g, pool, est, tx, rate, next)
  {
    BuiltInputs(p, r, g, pool, est, tx, rate);
    hide Built, Extend, SignerTable, Record;
    next := Record(p, r.IsNil(), Extend(p, r, g), SignerTable(r, g, pool), pool, tx, rate);
  }

  lemma {:induction false} SentIsStep(p: Params, s: State, e: Event, s': State)
    requires s.phase.Working? && e.Sent?
    requires Inputs(p, e.sentViews, s.phase.actions, s.store.rbf, Some(e.est)) == Ok((e.g, e.pool))
    requires Accepted(p, s.store.rbf, e.g, e.pool, e.est, e.tx, e.rate, e.next) && Spendable(s.ledger, e.tx)
    requires s'.ledger == s.ledger.Broadcast(e.tx) && s'.phase == Idle
    requires s'.store == if e.stored then BatchRecord(s.store.prevOrders + Keys(s.phase.actions), e.next) else s.store
    ensures Step(p, s, e, s')
  {
    hide Inputs, Accepted, Spendable;
  }

  lemma {:induction false} BuiltInputs(p: Params, r: Rbf, g: seq<Gathered>, pool: seq<Utxo>, est: int, tx: Tx,
                                       rate: int)
    requires Built(p, r, g, pool, est, tx, rate)
    ensures |Extend(p, r, g).vin| == 0 ==> |tx.ins| <= |pool|
  {
    hide SignedBy, SignerTable, Extend, VSize, TotalFee;
  }

  lemma {:induction false} ErrorIsStep(p: Params, s: State, e: Event, s': State)
    requires s.phase.Working? && (e.Missing? || e.Failed?)
    requires e.Missing? ==> AnswersMissing(p, s, s.phase.actions, e.missingViews, e.missingEst)
    requires s' == State(s.ledger, if e.Missing? && e.resetStored then NEW_BATCH else s.store, Idle)
    ensures Step(p, s, e, s')
  {
    hide AnswersMissing;
  }

  /** Why a call fails with nothing sent: "missing or spent" has one of its three causes, any other
      error another. */
  lemma {:induction false} ErrorStep(p: Params, s: State, node: Node, after: Ledger, actions: seq<ActionItem>,
                                     views: Views, est: Option<Pos>, g: seq<Gathered>, pool: seq<Utxo>, rate: int,
                                     next: Rbf, err: Option<Error>)
    requires err.Some? && node.ledger == s.ledger
    requires match Inputs(p, views, actions, s.store.rbf, est)
             case Err(e) => err == Some(e)
             case Ok(found) =>
               && (g, pool) == found
               && Answer(p, node, after, s.store.rbf, g, pool, est.value, None, rate, next, err)
    ensures if err.value == InputsMissingOrSpent then AnswersMissing(p, s, actions, views, est)
            else AnswersFailed(p, node, s.store.rbf, actions, views, est)
  {
    hide Inputs, RefusedByNode, AgainstPolicy, TooExpensive, LostFirstInputs, CannotSign;
  }
}
