/** Orders as the executors see them, and the actions they call for. */
module Orders {
  import opened Bitcoin
  import opened RbfPlan

  datatype Chain = BitcoinChain | EvmChain(name: string)

  datatype SwapStatus =
    | NotStarted | Detected | Initiated | Expired | RedeemDetected | Redeemed | Refunded

  /** The secret text of a leg: absent, not hexadecimal, or decoded. */
  datatype SecretText = NoSecret | BadHex | Hex(bytes: Bytes)

  /** One leg; `swap` is absent when its text fields do not parse. */
  datatype Leg = Leg(chain: Chain, status: SwapStatus, swap: Option<Swap>, secret: SecretText)

  datatype Order = Order(initiator: Leg, follower: Leg)

  datatype Pick = Skip | Abort | Take(item: ActionItem)

  datatype BatchKey = BatchKey(action: Action, secretHash: Bytes)

  function KeyOf(a: ActionItem): BatchKey { BatchKey(a.action, a.swap.secretHash) }

  /** The action the Bitcoin executor chooses for an order, and the leg it acts on. */
  function Needed(chain: Chain, o: Order): Option<(Action, Leg)> {
    if o.follower.chain == chain then
      if o.initiator.status == Initiated && o.follower.status == NotStarted then Some((Initiate, o.follower))
      else if o.follower.status == Expired then Some((Refund, o.follower))
      else None
    else if o.initiator.chain == chain then
      if o.follower.status in {Redeemed, RedeemDetected} && o.initiator.status == Initiated then
        Some((Redeem, o.initiator))
      else None
    else None
  }

  /** Decoding an absent secret gives no bytes and no error. */
  function DecodeSecret(t: SecretText): Option<Bytes> {
    match t
    case NoSecret => Some([])
    case BadHex => None
    case Hex(b) => Some(b)
  }

  // ------------------------------------------------ the on-chain guard

  function ConfirmedTotal(us: seq<Utxo>): int {
    if us == [] then 0
    else ConfirmedTotal(DropLast(us)) + if Last(us).status.Confirmed? then Last(us).amount else 0
  }

  /** Whether the swap counts as initiated; absent when the indexer fails or there are too many
      partial payments. */
  function InitiatedAt(views: Views, s: Swap): Option<bool> {
    if s.LockAddress() !in views then None
    else if |views[s.LockAddress()]| > 3 then None
    else Some(ConfirmedTotal(views[s.LockAddress()]) >= s.amount)
  }

  /** What one order contributes to the batch. */
  function PickOrder(chain: Chain, prev: set<BatchKey>, views: Views, o: Order): Pick {
    match Needed(chain, o)
    case None => Skip
    case Some((action, leg)) =>
      if leg.swap == None then Skip
      else if action == Redeem && DecodeSecret(o.follower.secret) == None then Abort
      else
        var secret := if action == Redeem then DecodeSecret(o.follower.secret).value else [];
        var item := ActionItem(action, leg.swap.value, secret);
        if KeyOf(item) in prev then Skip
        else if action == Initiate && InitiatedAt(views, item.swap) != Some(false) then Skip
        else Take(item)
  }

  // ------------------------------------------------ what exactly is taken

  /** An initiate is taken exactly when the order waits for the follower on this chain, its key is new,
      and the indexer lists at most three outputs whose confirmed ones are worth less than the amount. */
  lemma {:induction false} InitiateTaken(chain: Chain, prev: set<BatchKey>, views: Views, o: Order, item: ActionItem)
    requires item.action == Initiate
    ensures PickOrder(chain, prev, views, o) == Take(item)
       <==> && o.follower.chain == chain && o.follower.status == NotStarted && o.initiator.status == Initiated
            && o.follower.swap == Some(item.swap) && item.secret == []
            && BatchKey(Initiate, item.swap.secretHash) !in prev
            && var a := item.swap.LockAddress();
               a in views && |views[a]| <= 3 && SumUtxos(ConfirmedOnly(views[a])) < item.swap.amount
  {
    if item.swap.LockAddress() in views {
      TotalIsConfirmedSum(views[item.swap.LockAddress()]);
    }
  }

  lemma {:induction false} TotalIsConfirmedSum(us: seq<Utxo>)
    ensures ConfirmedTotal(us) == SumUtxos(ConfirmedOnly(us))
  {
    if us == [] {
    } else {
      TotalIsConfirmedSum(DropLast(us));
      assert DropLast(ConfirmedOnly(DropLast(us)) + [Last(us)]) == ConfirmedOnly(DropLast(us));
    }
  }

  /** A redeem is taken exactly when the follower's leg, on another chain, shows the secret and the
      initiator's leg on this chain can still be redeemed; it carries the secret shown. */
  lemma {:induction false} RedeemTaken(chain: Chain, prev: set<BatchKey>, views: Views, o: Order, item: ActionItem)
    requires item.action == Redeem
    ensures PickOrder(chain, prev, views, o) == Take(item)
       <==> && o.follower.chain != chain && o.initiator.chain == chain
            && o.initiator.status == Initiated && o.follower.status in {Redeemed, RedeemDetected}
            && o.initiator.swap == Some(item.swap)
            && (o.follower.secret == Hex(item.secret) || (o.follower.secret == NoSecret && item.secret == []))
            && BatchKey(Redeem, item.swap.secretHash) !in prev
  {
  }

  /** A refund is taken exactly when the follower's leg on this chain has expired and its key is new. */
  lemma {:induction false} RefundTaken(chain: Chain, prev: set<BatchKey>, views: Views, o: Order, item: ActionItem)
    requires item.action == Refund
    ensures PickOrder(chain, prev, views, o) == Take(item)
       <==> && o.follower.chain == chain && o.follower.status == Expired
            && o.follower.swap == Some(item.swap) && item.secret == []
            && BatchKey(Refund, item.swap.secretHash) !in prev
  {
  }

  /** Nothing else is taken; and the poll is given up exactly at a due redeem whose secret is no
      hexadecimal text, also one that was executed before. */
  lemma {:induction false} NothingElseTaken(chain: Chain, prev: set<BatchKey>, views: Views, o: Order)
    ensures forall item :: PickOrder(chain, prev, views, o) == Take(item) ==> item.action in {Initiate, Redeem, Refund}
    ensures PickOrder(chain, prev, views, o) == Abort
       <==> && o.follower.chain != chain && o.initiator.chain == chain
            && o.initiator.status == Initiated && o.follower.status in {Redeemed, RedeemDetected}
            && o.initiator.swap.Some? && o.follower.secret == BadHex
  {
  }

  // ------------------------------------------------ the actions of a poll

  /** The new actions of a poll; absent when a secret cannot be decoded. */
  function SelectActions(chain: Chain, prev: set<BatchKey>, views: Views, orders: seq<Order>): Option<seq<ActionItem>> {
    if orders == [] then Some([])
    else match SelectActions(chain, prev, views, DropLast(orders))
      case None => None
      case Some(actions) =>
        match PickOrder(chain, prev, views, Last(orders))
        case Skip => Some(actions)
        case Abort => None
        case Take(item) => Some(actions + [item])
  }

  /** Nothing is selected exactly when some order aborts. */
  lemma {:induction false} AbortsExactly(chain: Chain, prev: set<BatchKey>, views: Views, orders: seq<Order>)
    ensures SelectActions(chain, prev, views, orders) == None
       <==> exists j :: 0 <= j < |orders| && PickOrder(chain, prev, views, orders[j]) == Abort
  {
    hide PickOrder;
    if orders == [] {
    } else {
      var d := DropLast(orders);
      AbortsExactly(chain, prev, views, d);
      assert forall j :: 0 <= j < |d| ==> d[j] == orders[j];
    }
  }

  /** The actions are the items taken at these places, in order, and every other order is skipped. */
  ghost predicate TakenAt(chain: Chain, prev: set<BatchKey>, views: Views, orders: seq<Order>,
                          actions: seq<ActionItem>, at: seq<nat>) {
    && |at| == |actions|
    && (forall k :: 0 <= k < |at| ==>
          at[k] < |orders| && PickOrder(chain, prev, views, orders[at[k]]) == Take(actions[k]))
    && (forall k, m :: 0 <= k < m < |at| ==> at[k] < at[m])
    && (forall j :: 0 <= j < |orders| && j !in at ==> PickOrder(chain, prev, views, orders[j]) == Skip)
  }

  /** What is selected are the taken items, in the order of the orders, one for each order that gives one. */
  lemma {:induction false} SelectedExactly(chain: Chain, prev: set<BatchKey>, views: Views, orders: seq<Order>)
    returns (at: seq<nat>)
    requires SelectActions(chain, prev, views, orders).Some?
    ensures TakenAt(chain, prev, views, orders, SelectActions(chain, prev, views, orders).value, at)
  {
    hide PickOrder, TakenAt;
    if orders == [] {
      at := [];
      NothingTaken(chain, prev, views);
    } else {
      var d := DropLast(orders);
      at := SelectedExactly(chain, prev, views, d);
      OneMoreOrder(chain, prev, views, orders, SelectActions(chain, prev, views, d).value, at);
      if PickOrder(chain, prev, views, Last(orders)).Take? {
        at := at + [|d|];
      }
    }
  }

  lemma {:induction false} NothingTaken(chain: Chain, prev: set<BatchKey>, views: Views)
    ensures TakenAt(chain, prev, views, [], [], [])
  {
  }

  lemma {:induction false} OneMoreOrder(chain: Chain, prev: set<BatchKey>, views: Views, orders: seq<Order>,
                                        actions: seq<ActionItem>, at: seq<nat>)
    requires orders != [] && TakenAt(chain, prev, views, DropLast(orders), actions, at)
    ensures
      match PickOrder(chain, prev, views, Last(orders))
      case Skip => TakenAt(chain, prev, views, orders, actions, at)
      case Take(item) => TakenAt(chain, prev, views, orders, actions + [item], at + [|orders| - 1])
      case Abort => true
  {
    hide PickOrder;
    var d, at' := DropLast(orders), at + [|orders| - 1];
    assert forall j :: 0 <= j < |d| ==> d[j] == orders[j];
    assert forall j :: j in at' <==> j in at || j == |orders| - 1;
  }

  /** Where every order is skipped, nothing is selected. */
  lemma {:induction false} NothingSelected(chain: Chain, prev: set<BatchKey>, views: Views, orders: seq<Order>)
    requires TakenAt(chain, prev, views, orders, [], [])
    ensures SelectActions(chain, prev, views, orders) == Some([])
  {
    hide PickOrder;
    if orders == [] {
    } else {
      var d := DropLast(orders);
      assert forall j :: 0 <= j < |d| ==> d[j] == orders[j];
      NothingSelected(chain, prev, views, d);
    }
  }
}
