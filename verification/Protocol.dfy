/** The executor as a state machine over the ledger and the stored batch record, the hypotheses on
    the world around it, and what it is to be safe. */
module Protocol {
  import opened Bitcoin
  import opened Ledgers
  import opened RbfPlan
  import opened RbfChain
  import opened Orders

  datatype BatchRecord = BatchRecord(prevOrders: set<BatchKey>, rbf: Rbf)

  const NEW_BATCH := BatchRecord({}, EMPTY_RBF)

  /** Between polls, going through the orders of a poll, or about to call the wallet. */
  datatype Phase =
    | Idle
    | Choosing(rest: seq<Order>, actions: seq<ActionItem>)
    | Working(actions: seq<ActionItem>)

  datatype State = State(ledger: Ledger, store: BatchRecord, phase: Phase)

  function Keys(actions: seq<ActionItem>): set<BatchKey> {
    if actions == [] then {} else Keys(DropLast(actions)) + {KeyOf(Last(actions))}
  }

  /** The fee of the lowest projected entry of the next block asks for a higher rate. */
  predicate FeeTooLow(r: Rbf, lowest: Option<real>) {
    lowest.Some? && r.feeRate as real < lowest.value + 1.0
  }

  /** What becomes of a poll when it has looked at its next order. */
  function Chosen(rec: BatchRecord, rest: seq<Order>, actions: seq<ActionItem>, views: Views): Phase
    requires rest != []
  {
    match PickOrder(BitcoinChain, rec.prevOrders, views, rest[0])
    case Skip => Choosing(rest[1..], actions)
    case Abort => Idle
    case Take(item) => Choosing(rest[1..], actions + [item])
  }

  /** What a poll goes on to do once it has looked at every order. */
  function Decided(rec: BatchRecord, actions: seq<ActionItem>, lowest: Option<real>): Phase {
    if actions == [] && (rec.prevOrders == {} || !FeeTooLow(rec.rbf, lowest)) then Idle
    else Working(actions)
  }

  /** A poll that has looked at every order goes on exactly with new actions, or for a non-empty record
      whose rate is below the lowest one projected for the next block, plus one. */
  lemma {:induction false} GoesOnExactly(rec: BatchRecord, actions: seq<ActionItem>, lowest: Option<real>)
    ensures Decided(rec, actions, lowest) == Working(actions) || Decided(rec, actions, lowest) == Idle
    ensures Decided(rec, actions, lowest).Working?
       <==> || actions != []
            || (rec.prevOrders != {} && lowest.Some? && rec.rbf.feeRate as real < lowest.value + 1.0)
  {
  }

  datatype Event =
    | Begin(orders: seq<Order>)
    | Look(views: Views, claimed: set<OutPoint>)
    | Decide(lowest: Option<real>)
    | Sent(sentViews: Views, est: Pos, g: seq<Gathered>, pool: seq<Utxo>, tx: Tx, rate: int, next: Rbf,
           stored: bool)
    | Missing(missingViews: Views, missingEst: Option<Pos>, resetStored: bool)
    | Failed
    | Confirm(confirmed: Tx)
    | Deposit(op: OutPoint, out: TxOut)
    | Spend(spent: OutPoint)

  /** The wallet answers that inputs are missing or spent. */
  ghost predicate AnswersMissing(p: Params, s: State, actions: seq<ActionItem>, views: Views, est: Option<Pos>) {
    match Inputs(p, views, actions, s.store.rbf, est)
    case Err(e) => e == InputsMissingOrSpent
    case Ok((g, pool)) =>
      || RefusedByNode(p, s.ledger, s.store.rbf, g, pool, est.value)
      || (!s.store.rbf.IsNil() && LostFirstInputs(p, s.store.rbf, g, pool))
  }

  /** It does so exactly when the first action that fails has an address that was answered without a
      confirmed output, or when a call with known inputs is refused by the node or finds no first input. */
  lemma {:induction false} MissingExactly(p: Params, s: State, actions: seq<ActionItem>, views: Views,
                                          est: Option<Pos>)
    ensures AnswersMissing(p, s, actions, views, est)
       <==> || (exists i :: FailsFirst(p, views, actions, i, InputsMissingOrSpent))
            || (match Inputs(p, views, actions, s.store.rbf, est)
                case Err(_) => false
                case Ok((g, pool)) =>
                  || RefusedByNode(p, s.ledger, s.store.rbf, g, pool, est.value)
                  || (!s.store.rbf.IsNil() && LostFirstInputs(p, s.store.rbf, g, pool)))
  {
    hide Inputs, RefusedByNode, LostFirstInputs, FailsFirst, AllGather;
    InputsExactly(p, views, actions, s.store.rbf, est);
    assert StopsWith(p, views, actions, s.store.rbf, est, InputsMissingOrSpent)
           <==> exists i :: FailsFirst(p, views, actions, i, InputsMissingOrSpent);
  }

  /** One step of the system: of the executor's poll (`Begin`, a `Look` at each order, `Decide`, then
      `Sent`, `Missing` or `Failed`), or of the world in between. */
  ghost predicate Step(p: Params, s: State, e: Event, s': State) {
    match e
    case Begin(orders) =>
      s.phase == Idle && s' == s.(phase := Choosing(orders, []))
    case Look(views, _) =>
      && s.phase.Choosing? && s.phase.rest != []
      && s' == s.(phase := Chosen(s.store, s.phase.rest, s.phase.actions, views))
    case Decide(lowest) =>
      && s.phase.Choosing? && s.phase.rest == []
      && s' == s.(phase := Decided(s.store, s.phase.actions, lowest))
    case Sent(views, est, g, pool, tx, rate, next, stored) =>
      && s.phase.Working?
      && Inputs(p, views, s.phase.actions, s.store.rbf, Some(est)) == Ok((g, pool))
      && Accepted(p, s.store.rbf, g, pool, est, tx, rate, next)
      && Spendable(s.ledger, tx)
      && s' == State(s.ledger.Broadcast(tx),
                     if stored then BatchRecord(s.store.prevOrders + Keys(s.phase.actions), next) else s.store,
                     Idle)
    case Missing(views, est, stored) =>
      && s.phase.Working?
      && AnswersMissing(p, s, s.phase.actions, views, est)
      && s' == State(s.ledger, if stored then NEW_BATCH else s.store, Idle)
    case Failed =>
      s.phase.Working? && s' == s.(phase := Idle)
    case Confirm(tx) =>
      && tx in s.ledger.broadcast && Spendable(s.ledger, tx)
      && s' == s.(ledger := s.ledger.Confirm(tx))
    case Deposit(op, out) =>
      && op.txid.Foreign? && op !in s.ledger.outs && out.amount >= 0
      && s' == s.(ledger := s.ledger.(outs := s.ledger.outs[op := out]))
    case Spend(op) =>
      && op in s.ledger.outs && op !in s.ledger.spent
      && s' == s.(ledger := s.ledger.(spent := s.ledger.spent + {op}))
  }

  // ------------------------------------------------ hypotheses on the environment

  /** An indexer answer for an address lists outputs once, and as confirmed only true ones. */
  ghost predicate TrueView(l: Ledger, us: seq<Utxo>, a: Address) {
    && NoDup(Ops(us))
    && (forall i :: 0 <= i < |us| ==> us[i].amount >= 0)
    && (forall i :: 0 <= i < |us| && us[i].status.Confirmed? ==>
          us[i].op in l.outs && l.outs[us[i].op] == TxOut(a, us[i].amount))
  }

  /** Answers that are true, but may be from any earlier moment. */
  ghost predicate TrueViews(l: Ledger, views: Views) {
    forall a :: a in views ==> TrueView(l, views[a], a)
  }

  /** An indexer answer that also lists all confirmed outputs, except those the indexer already
      counts as claimed by some other transaction. */
  ghost predicate HonestView(l: Ledger, claimed: set<OutPoint>, us: seq<Utxo>, a: Address) {
    && TrueView(l, us, a)
    && (forall op :: op in l.outs && l.outs[op].to == a && op !in claimed ==> op in Ops(ConfirmedOnly(us)))
  }

  ghost predicate HonestViews(l: Ledger, claimed: set<OutPoint>, views: Views) {
    l.spent <= claimed && forall a :: a in views ==> HonestView(l, claimed, views[a], a)
  }

  /** Fixed facts about orders: the amount an HTLC address is to be paid (`terms`), and that the
      counterparty is never the wallet itself. */
  ghost predicate KnownOrder(p: Params, terms: Terms, o: Order) {
    match Needed(BitcoinChain, o)
    case Some((action, leg)) =>
      leg.swap.Some? ==>
        && (action == Initiate ==> leg.swap.value.amount == terms(leg.swap.value.LockAddress()))
        && (action == Redeem ==> leg.swap.value.initiator != p.key)
        && (action == Refund ==> leg.swap.value.initiator == p.key)
    case None => true
  }

  /** An HTLC with an output already claimed is not reported as waiting for initiation. */
  ghost predicate NotClaimedYet(l: Ledger, claimed: set<OutPoint>, o: Order) {
    match Needed(BitcoinChain, o)
    case Some((Initiate, leg)) =>
      leg.swap.Some? ==>
        forall op :: op in l.outs && op in claimed ==> l.outs[op].to != leg.swap.value.LockAddress()
    case _ => true
  }

  /** The key an order's action would have in the record. */
  function OrderKey(o: Order): Option<BatchKey> {
    match Needed(BitcoinChain, o)
    case Some((action, leg)) =>
      if leg.swap.Some? then Some(BatchKey(action, leg.swap.value.secretHash)) else None
    case None => None
  }

  ghost predicate SameKey(o: Order, o': Order) {
    OrderKey(o).Some? && OrderKey(o) == OrderKey(o')
  }

  ghost predicate NoSameKey(orders: seq<Order>) {
    forall i, j :: 0 <= i < j < |orders| ==> !SameKey(orders[i], orders[j])
  }

  // ------------------------------------------------ what a forgotten chain may still pay

  /** The agreed amount of each HTLC address. */
  type Terms = Address -> int

  ghost function OutsAt(l: Ledger, a: Address): set<OutPoint> {
    set op | op in l.outs && l.outs[op].to == a
  }

  ghost function Worth(l: Ledger, ops: set<OutPoint>): int
    requires ops <= l.outs.Keys
  {
    if ops == {} then 0
    else
      var op :| op in ops;
      l.outs[op].amount + Worth(l, ops - {op})
  }

  /** More than three outputs stand at the address, or they add up to the agreed amount. */
  ghost predicate Full(l: Ledger, terms: Terms, a: Address) {
    |OutsAt(l, a)| > 3 || Worth(l, OutsAt(l, a)) >= terms(a)
  }

  /** The address is full, or one of its outputs was claimed. */
  ghost predicate Barred(l: Ledger, terms: Terms, a: Address) {
    Full(l, terms, a) || OutsAt(l, a) * l.spent != {}
  }

  /** Output i of the k-th broadcast transaction would pay an HTLC if the transaction confirmed. */
  ghost predicate Threatens(l: Ledger, k: int, i: int) {
    && 0 <= k < |l.broadcast| && 0 <= i < |l.broadcast[k].outs|
    && !Dead(l, l.broadcast[k]) && l.broadcast[k].outs[i].to.P2wsh?
  }

  /** The HTLCs live forgotten transactions pay. */
  ghost function LiveHtlcs(l: Ledger): set<Address> {
    set k, i | 0 <= k < |l.broadcast| && 0 <= i < |l.broadcast[k].outs|
        && Threatens(l, k, i) :: l.broadcast[k].outs[i].to
  }

  /** Every HTLC a live transaction pays is barred. */
  ghost predicate AllBarred(l: Ledger, terms: Terms) {
    forall a :: a in LiveHtlcs(l) ==> Barred(l, terms, a)
  }

  // ------------------------------------------------ the hypotheses at each step

  /** A chain transaction has confirmed, or an input common to all chain transactions was spent. */
  ghost predicate ChainSettled(s: State) {
    || (exists k :: 0 <= k < |s.ledger.confirmed| && Spends(s.ledger.confirmed[k], Anchor(s.store.rbf)))
    || (exists op :: op in s.ledger.spent && CommonInput(s, op))
  }

  ghost predicate CommonInput(s: State, op: OutPoint) {
    forall k :: 0 <= k < |s.ledger.broadcast| ==>
      Spends(s.ledger.broadcast[k], Anchor(s.store.rbf)) ==> Spends(s.ledger.broadcast[k], op)
  }

  /** What the safety theorem asks of the environment at each step. */
  ghost predicate Hyp(p: Params, terms: Terms, s: State, e: Event) {
    match e
    case Begin(orders) => NoSameKey(orders)
    case Look(views, claimed) =>
      s.phase.Choosing? && s.phase.rest != [] ==>
        && HonestViews(s.ledger, claimed, views)
        && KnownOrder(p, terms, s.phase.rest[0]) && NotClaimedYet(s.ledger, claimed, s.phase.rest[0])
    case Sent(views, _, _, _, tx, _, _, stored) =>
      TrueViews(s.ledger, views)
      && (!stored && s.store == NEW_BATCH ==> AllBarred(s.ledger.Broadcast(tx), terms))
    case Missing(_, _, stored) =>
      stored && s.store != NEW_BATCH ==> AllBarred(s.ledger, terms)
    case _ => true
  }

  /** No HTLC has received two confirmed payments from the wallet. */
  ghost predicate AtMostOnce(l: Ledger) {
    forall script: Script :: Paid(l.confirmed, P2wsh(script)) <= 1
  }

  /** A run: one more state than events, each step allowed and under the hypotheses. */
  ghost predicate Run(p: Params, terms: Terms, states: seq<State>, events: seq<Event>) {
    if events == [] then |states| == 1
    else
      && |states| == |events| + 1
      && Run(p, terms, DropLast(states), DropLast(events))
      && Step(p, states[|states| - 2], Last(events), Last(states))
      && Hyp(p, terms, states[|states| - 2], Last(events))
  }

  /** Steps one after the other, under no hypotheses. */
  ghost predicate Path(p: Params, states: seq<State>, events: seq<Event>) {
    if events == [] then |states| == 1
    else
      && |states| == |events| + 1
      && Path(p, DropLast(states), DropLast(events))
      && Step(p, states[|states| - 2], Last(events), Last(states))
  }

  lemma {:induction false} NoSteps(p: Params, s: State)
    ensures Path(p, [s], [])
  {
  }

  lemma {:induction false} PathExtends(p: Params, states: seq<State>, events: seq<Event>, e: Event, s': State)
    requires Path(p, states, events) && |states| > 0 && Step(p, Last(states), e, s')
    ensures Path(p, states + [s'], events + [e])
    ensures (states + [s'])[0] == states[0] && Last(states + [s']) == s'
  {
    hide Step;
    assert |states| == |events| + 1;
    assert DropLast(states + [s']) == states && DropLast(events + [e]) == events;
    assert (states + [s'])[|states| - 1] == Last(states);
  }

  lemma {:induction false} PathLength(p: Params, states: seq<State>, events: seq<Event>)
    requires Path(p, states, events)
    ensures |states| == |events| + 1
  {
  }

  ghost predicate Initial(s: State) {
    && s.store == NEW_BATCH && s.phase == Idle
    && s.ledger.broadcast == [] && s.ledger.confirmed == [] && s.ledger.spent <= s.ledger.outs.Keys
    && forall op :: op in s.ledger.outs ==> op.txid.Foreign? && s.ledger.outs[op].amount >= 0
  }
}
