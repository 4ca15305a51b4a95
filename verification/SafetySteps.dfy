/** Every step under the hypotheses keeps the invariant; so over all runs no swap is paid twice. */
module SafetySteps {
  import opened Bitcoin
  import opened Ledgers
  import opened RbfPlan
  import opened RbfChain
  import opened Orders
  import opened Protocol
  import opened Safety

  // ------------------------------------------------ selecting actions

  lemma {:induction false} KeysMember(actions: seq<ActionItem>, k: BatchKey) returns (i: nat)
    requires k in Keys(actions)
    ensures i < |actions| && KeyOf(actions[i]) == k
  {
    if k == KeyOf(Last(actions)) {
      i := |actions| - 1;
    } else {
      i := KeysMember(DropLast(actions), k);
    }
  }

  lemma {:induction false} KeyInKeys(actions: seq<ActionItem>, i: nat)
    requires i < |actions|
    ensures KeyOf(actions[i]) in Keys(actions)
  {
    if i == |actions| - 1 {
    } else {
      KeyInKeys(DropLast(actions), i);
    }
  }

  lemma {:induction false} PickedKey(prev: set<BatchKey>, views: Views, o: Order, a: ActionItem)
    requires PickOrder(BitcoinChain, prev, views, o) == Take(a)
    ensures OrderKey(o) == Some(KeyOf(a)) && KeyOf(a) !in prev
  {
  }

  /** An address the guard let through is neither paid nor closed. */
  lemma {:induction false} GuardMeansOpen(l: Ledger, terms: Terms, orphans: Orphans, views: Views,
                                          claimed: set<OutPoint>, s: Swap)
    requires LedgerOk(l) && ConfirmedPaysTerms(l, terms) && AllClosed(l, terms, orphans)
    requires HonestViews(l, claimed, views) && s.amount == terms(s.LockAddress())
    requires forall op :: op in l.outs && op in claimed ==> l.outs[op].to != s.LockAddress()
    requires InitiatedAt(views, s) == Some(false)
    ensures !Closed(l, terms, s.LockAddress()) && Open(l, orphans, s.LockAddress())
  {
    var a := s.LockAddress();
    var us := views[a];
    assert HonestView(l, {}, us, a);
    assert !Blocks(us, terms(a));
    if Paid(l.confirmed, a) > 0 {
      PaidIsGuarded(l, terms, s.LockScript());
    }
  }

  lemma {:induction false} PickedActionOk(p: Params, terms: Terms, s: State, orphans: Orphans, e: Event,
                                          a: ActionItem)
    requires Inv(terms, s, orphans) && s.phase.Choosing? && s.phase.rest != [] && e.Look? && Hyp(p, terms, s, e)
    requires PickOrder(BitcoinChain, s.store.prevOrders, e.views, s.phase.rest[0]) == Take(a)
    ensures ActionOk(s.ledger, terms, s.store, orphans, a)
  {
    if a.action == Initiate {
      GuardMeansOpen(s.ledger, terms, orphans, e.views, e.claimed, a.swap);
    }
  }

  lemma {:induction false} RestAfter(rest: seq<Order>, actions: seq<ActionItem>)
    requires RestOk(rest, actions) && rest != []
    ensures RestOk(rest[1..], actions)
    ensures OrderKey(rest[0]).Some? ==>
              && OrderKey(rest[0]).value !in Keys(actions)
              && forall a :: OrderKey(rest[0]) == Some(KeyOf(a)) ==> RestOk(rest[1..], actions + [a])
  {
    forall a | OrderKey(rest[0]) == Some(KeyOf(a)) ensures RestOk(rest[1..], actions + [a]) {
      assert DropLast(actions + [a]) == actions;
      forall j | 0 <= j < |rest[1..]| && OrderKey(rest[1..][j]).Some?
        ensures OrderKey(rest[1..][j]).value !in Keys(actions + [a])
      {
        assert !SameKey(rest[0], rest[j + 1]);
      }
    }
  }

  /** Looking at one order keeps the invariant, whatever happened since the poll began. */
  lemma {:induction false} LookKeeps(p: Params, terms: Terms, s: State, s': State, orphans: Orphans, e: Event)
    requires Inv(terms, s, orphans) && e.Look? && Hyp(p, terms, s, e) && Step(p, s, e, s')
    ensures Inv(terms, s', orphans)
  {
    var rest, actions := s.phase.rest, s.phase.actions;
    RestAfter(rest, actions);
    match PickOrder(BitcoinChain, s.store.prevOrders, e.views, rest[0])
    case Take(item) =>
      PickedKey(s.store.prevOrders, e.views, rest[0], item);
      PickedActionOk(p, terms, s, orphans, e, item);
      assert DropLast(actions + [item]) == actions && Last(actions + [item]) == item;
    case _ =>
  }

  lemma {:induction false} DecideKeeps(p: Params, terms: Terms, s: State, s': State, orphans: Orphans, e: Event)
    requires Inv(terms, s, orphans) && e.Decide? && Step(p, s, e, s')
    ensures Inv(terms, s', orphans)
  {
  }

  lemma {:induction false} BeginKeeps(p: Params, terms: Terms, s: State, s': State, orphans: Orphans, e: Event)
    requires Inv(terms, s, orphans) && e.Begin? && Hyp(p, terms, s, e) && Step(p, s, e, s')
    ensures Inv(terms, s', orphans)
  {
  }

  // ------------------------------------------------ submitting

  function Items(g: seq<Gathered>): seq<ActionItem> {
    if g == [] then [] else Items(DropLast(g)) + [Last(g).item]
  }

  lemma {:induction false} GatheredItems(p: Params, views: Views, actions: seq<ActionItem>)
    requires Gather(p, views, actions).Ok?
    ensures Items(Gather(p, views, actions).value) == actions
  {
    hide GatherOne;
    if actions == [] {
    } else {
      GatheredItems(p, views, DropLast(actions));
      var g, x := GatheredLast(p, views, actions);
      assert DropLast(g + [x]) == g && Last(g + [x]) == x;
      assert actions == DropLast(actions) + [Last(actions)];
    }
  }

  lemma {:induction false} GatheredLast(p: Params, views: Views, actions: seq<ActionItem>)
    returns (g: seq<Gathered>, x: Gathered)
    requires actions != [] && Gather(p, views, actions).Ok?
    ensures Gather(p, views, DropLast(actions)) == Ok(g) && Gather(p, views, actions) == Ok(g + [x])
    ensures x.item == Last(actions)
  {
    g := Gather(p, views, DropLast(actions)).value;
    x := GatherOne(p, views, Last(actions)).value;
  }

  lemma {:induction false} RecipientFrom(g: seq<Gathered>, i: nat) returns (j: nat)
    requires i < |Recipients(g)|
    ensures j < |Items(g)| && Items(g)[j].action == Initiate
    ensures Recipients(g)[i] == TxOut(Items(g)[j].swap.LockAddress(), Items(g)[j].swap.amount)
    ensures |Items(g)| == |g|
  {
    ItemsLength(g);
    ItemsLength(DropLast(g));
    if i < |Recipients(DropLast(g))| {
      j := RecipientFrom(DropLast(g), i);
    } else {
      j := |g| - 1;
    }
  }

  lemma {:induction false} ItemsLength(g: seq<Gathered>)
    ensures |Items(g)| == |g|
  {
    if g == [] {
    } else {
      ItemsLength(DropLast(g));
    }
  }

  /** Actions with different keys pay an HTLC at most once, and only under its own key. */
  lemma {:induction false} CountByKey(g: seq<Gathered>, script: Script)
    requires DistinctKeys(Items(g))
    ensures CountTo(Recipients(g), P2wsh(script)) <= 1
    ensures CountTo(Recipients(g), P2wsh(script)) > 0 ==> BatchKey(Initiate, script.secretHash) in Keys(Items(g))
  {
    if g == [] {
    } else {
      var d, x := DropLast(g), Last(g);
      assert DropLast(Items(g)) == Items(d) && Last(Items(g)) == x.item;
      CountByKey(d, script);
      CountToConcat(Recipients(d), Pays(x), P2wsh(script));
      if x.item.action == Initiate {
        assert DropLast(Pays(x)) == [];
      }
    }
  }

  /** Recipients of the record extended by new actions. */
  ghost predicate FreshRecipients(terms: Terms, rec: BatchRecord, actions: seq<ActionItem>, recipients: seq<TxOut>) {
    && (forall i :: 0 <= i < |recipients| ==>
          && recipients[i].to.P2wsh?
          && BatchKey(Initiate, recipients[i].to.script.secretHash) in rec.prevOrders + Keys(actions))
    && (forall i :: 0 <= i < |recipients| ==> recipients[i].amount == terms(recipients[i].to))
    && (forall script: Script :: CountTo(recipients, P2wsh(script)) <= 1)
  }

  lemma {:induction false} StoreRecipients(terms: Terms, rec: BatchRecord)
    requires StoreOk(terms, rec)
    ensures RecipientsOk(terms, rec)
  {
  }

  lemma {:induction false} NewKey(l: Ledger, terms: Terms, rec: BatchRecord, orphans: Orphans,
                                  actions: seq<ActionItem>, k: BatchKey)
    requires WorkOk(l, terms, rec, orphans, actions) && k in Keys(actions)
    ensures k !in rec.prevOrders
  {
    var j := KeysMember(actions, k);
    assert ActionOk(l, terms, rec, orphans, actions[j]);
  }

  lemma {:induction false} OldKey(terms: Terms, rec: BatchRecord, script: Script)
    requires RecipientsOk(terms, rec) && CountTo(rec.rbf.recipients, P2wsh(script)) > 0
    ensures BatchKey(Initiate, script.secretHash) in rec.prevOrders
  {
    CountToZero(rec.rbf.recipients, P2wsh(script));
  }

  lemma {:induction false} ExtendedRecipient(l: Ledger, terms: Terms, rec: BatchRecord, orphans: Orphans,
                                             g: seq<Gathered>, i: nat)
    requires RecipientsOk(terms, rec) && WorkOk(l, terms, rec, orphans, Items(g))
    requires i < |rec.rbf.recipients + Recipients(g)|
    ensures
      var r := (rec.rbf.recipients + Recipients(g))[i];
      && r.to.P2wsh? && r.amount == terms(r.to)
      && BatchKey(Initiate, r.to.script.secretHash) in rec.prevOrders + Keys(Items(g))
  {
    if i >= |rec.rbf.recipients| {
      var j := RecipientFrom(g, i - |rec.rbf.recipients|);
      KeyInKeys(Items(g), j);
      assert ActionOk(l, terms, rec, orphans, Items(g)[j]);
    }
  }

  lemma {:induction false} ExtendedCount(l: Ledger, terms: Terms, rec: BatchRecord, orphans: Orphans,
                                         g: seq<Gathered>, script: Script)
    requires RecipientsOk(terms, rec) && WorkOk(l, terms, rec, orphans, Items(g))
    ensures CountTo(rec.rbf.recipients + Recipients(g), P2wsh(script)) <= 1
  {
    assert CountTo(rec.rbf.recipients, P2wsh(script)) <= 1;
    assert DistinctKeys(Items(g));
    hide RecipientsOk, WorkOk, CountTo, Recipients, DistinctKeys, Keys;
    CountToConcat(rec.rbf.recipients, Recipients(g), P2wsh(script));
    CountByKey(g, script);
    if CountTo(Recipients(g), P2wsh(script)) > 0 {
      NewKey(l, terms, rec, orphans, Items(g), BatchKey(Initiate, script.secretHash));
    }
    if CountTo(rec.rbf.recipients, P2wsh(script)) > 0 {
      OldKey(terms, rec, script);
    }
  }

  lemma {:induction false} RecipientsExtend(l: Ledger, terms: Terms, rec: BatchRecord, orphans: Orphans,
                                            g: seq<Gathered>)
    requires StoreOk(terms, rec) && WorkOk(l, terms, rec, orphans, Items(g))
    ensures FreshRecipients(terms, rec, Items(g), rec.rbf.recipients + Recipients(g))
  {
    StoreRecipients(terms, rec);
    hide RecipientsOk, WorkOk, StoreOk, Recipients, Keys, CountTo;
    forall i | 0 <= i < |rec.rbf.recipients + Recipients(g)|
      ensures
        var r := (rec.rbf.recipients + Recipients(g))[i];
        && r.to.P2wsh? && r.amount == terms(r.to)
        && BatchKey(Initiate, r.to.script.secretHash) in rec.prevOrders + Keys(Items(g))
    {
      ExtendedRecipient(l, terms, rec, orphans, g, i);
    }
    forall script: Script ensures CountTo(rec.rbf.recipients + Recipients(g), P2wsh(script)) <= 1 {
      ExtendedCount(l, terms, rec, orphans, g, script);
    }
  }

  /** All recipients of the next transaction are open while the chain is not over. */
  lemma {:induction false} RecipientsStayOpen(l: Ledger, terms: Terms, rec: BatchRecord, orphans: Orphans,
                                              g: seq<Gathered>)
    requires StoreOk(terms, rec) && WorkOk(l, terms, rec, orphans, Items(g)) && RecipientsOpen(l, rec, orphans)
            && !Over(l, rec)
    ensures forall i :: 0 <= i < |rec.rbf.recipients + Recipients(g)| ==>
            Open(l, orphans, (rec.rbf.recipients + Recipients(g))[i].to)
  {
    forall i | 0 <= i < |rec.rbf.recipients + Recipients(g)|
      ensures Open(l, orphans, (rec.rbf.recipients + Recipients(g))[i].to)
    {
      if i >= |rec.rbf.recipients| {
        var j := RecipientFrom(g, i - |rec.rbf.recipients|);
        assert ActionOk(l, terms, rec, orphans, Items(g)[j]);
      }
    }
  }

  /** A transaction with these recipients and at most one change output pays as agreed. */
  lemma {:induction false} OutsPayTerms(p: Params, terms: Terms, rec: BatchRecord, actions: seq<ActionItem>,
                                        recipients: seq<TxOut>, outs: seq<TxOut>)
    requires FreshRecipients(terms, rec, actions, recipients)
    requires |recipients| <= |outs| <= |recipients| + 1 && outs[..|recipients|] == recipients
    requires |outs| == |recipients| + 1 ==> Last(outs).to == p.Home()
    requires forall o :: o in outs ==> o.amount >= 0
    ensures PaysTerms(terms, outs)
    ensures forall i :: 0 <= i < |outs| && outs[i].to.P2wsh? ==> i < |recipients| && outs[i] == recipients[i]
  {
    forall i | 0 <= i < |outs| && outs[i].to.P2wsh? ensures i < |recipients| && outs[i] == recipients[i] {
      if i < |recipients| {
        assert outs[i] == outs[..|recipients|][i];
      }
    }
    forall script: Script ensures CountTo(outs, P2wsh(script)) <= 1 {
      if |outs| == |recipients| + 1 {
        assert DropLast(outs) == recipients;
      } else {
        assert outs == outs[..|recipients|];
      }
    }
  }

  /** The pieces of an accepted call the protocol needs. */
  lemma {:induction false} AcceptedShape(p: Params, rec: BatchRecord, terms: Terms, g: seq<Gathered>, pool: seq<Utxo>,
                                         est: Pos, tx: Tx, rate: int, next: Rbf)
    requires StoreOk(terms, rec) && Accepted(p, rec.rbf, g, pool, est, tx, rate, next)
    requires !rec.rbf.IsNil() ==> pool == rec.rbf.firstUtxos
    ensures Live(next) && Spends(tx, Anchor(next)) && |tx.ins| > 0
    ensures rec != NEW_BATCH ==> Anchor(next) == Anchor(rec.rbf)
    ensures next.recipients == rec.rbf.recipients + Recipients(g)
    ensures |next.recipients| <= |tx.outs| <= |next.recipients| + 1 && tx.outs[..|next.recipients|] == next.recipients
    ensures |tx.outs| == |next.recipients| + 1 ==> Last(tx.outs).to == p.Home()
    ensures forall o :: o in tx.outs ==> o.amount >= 0
  {
    var c := Call(g, pool, est, tx, rate, next);
    assert Succeeds(p, rec.rbf, c);
    CallKeepsChain(p, rec.rbf, c);
    hide SignedBy, SignerTable, WitnessSize, Types, Scripts, Secrets, Sequences, VSize, TotalFee, RawInputs, Recipients;
    assert next.recipients == Extend(p, rec.rbf, g).recipients;
  }

  lemma {:induction false} SpendableTxOk(l: Ledger, terms: Terms, tx: Tx)
    requires Spendable(l, tx) && |tx.ins| > 0 && PaysTerms(terms, tx.outs)
    ensures TxOk(l, terms, tx) && !Dead(l, tx)
  {
    forall i, j | 0 <= i < j < |Prevs(tx.ins)| ensures Prevs(tx.ins)[i] != Prevs(tx.ins)[j] {
      assert tx.ins[i].prev != tx.ins[j].prev;
    }
  }

  /** What the newly submitted transaction is: well formed, and paying only open addresses. */
  lemma {:induction false} SentTx(p: Params, terms: Terms, s: State, s': State, orphans: Orphans, e: Event)
    requires Inv(terms, s, orphans) && e.Sent? && Step(p, s, e, s')
    ensures Live(e.next) && Spends(e.tx, Anchor(e.next)) && !Over(s.ledger, s.store)
    ensures s.store != NEW_BATCH ==> Anchor(e.next) == Anchor(s.store.rbf)
    ensures FreshRecipients(terms, s.store, s.phase.actions, e.next.recipients)
    ensures forall i :: 0 <= i < |e.next.recipients| ==> Open(s.ledger, orphans, e.next.recipients[i].to)
    ensures TxOk(s.ledger, terms, e.tx) && !Dead(s.ledger, e.tx)
    ensures forall i :: 0 <= i < |e.tx.outs| && e.tx.outs[i].to.P2wsh? ==> Open(s.ledger, orphans, e.tx.outs[i].to)
  {
    hide Accepted, Gather, Step, BroadcastOk, AtMostOnce, AllClosed, LedgerOk, ConfirmedPaysTerms, PaysTerms,
      FreshRecipients, Spends;
    SentFacts(p, s, s', e);
    var rec, actions := s.store, s.phase.actions;
    AcceptedShape(p, rec, terms, e.g, e.pool, e.est, e.tx, e.rate, e.next);
    RecipientsExtend(s.ledger, terms, rec, orphans, e.g);
    OutsPayTerms(p, terms, rec, actions, e.next.recipients, e.tx.outs);
    SpendableTxOk(s.ledger, terms, e.tx);
    SpentAnchorBlocks(s.ledger, e.tx, Anchor(e.next));
    RecipientsStayOpen(s.ledger, terms, rec, orphans, e.g);
  }

  lemma {:induction false} SentFacts(p: Params, s: State, s': State, e: Event)
    requires e.Sent? && Step(p, s, e, s')
    ensures s.phase.Working? && Items(e.g) == s.phase.actions
    ensures s'.ledger == s.ledger.Broadcast(e.tx) && s'.phase == Idle
    ensures s'.store == if e.stored then BatchRecord(s.store.prevOrders + Keys(s.phase.actions), e.next) else s.store
    ensures Accepted(p, s.store.rbf, e.g, e.pool, e.est, e.tx, e.rate, e.next)
    ensures !s.store.rbf.IsNil() ==> e.pool == s.store.rbf.firstUtxos
    ensures Spendable(s.ledger, e.tx)
  {
    hide Accepted, Gather;
    GatheredItems(p, e.sentViews, s.phase.actions);
  }

  lemma {:induction false} SpentAnchorBlocks(l: Ledger, tx: Tx, op: OutPoint)
    requires Spendable(l, tx) && Spends(tx, op)
    ensures op !in l.spent
  {
  }

  /** The record after a submission whose write succeeded. */
  lemma {:induction false} StoredRecord(terms: Terms, l: Ledger, l': Ledger, rec: BatchRecord, orphans: Orphans,
                                        actions: seq<ActionItem>, next: Rbf)
    requires rec == NEW_BATCH ==> actions != []
    requires StoreOk(terms, rec) && Live(next) && FreshRecipients(terms, rec, actions, next.recipients)
    requires forall i :: 0 <= i < |next.recipients| ==> Open(l, orphans, next.recipients[i].to)
    requires l'.confirmed == l.confirmed
    ensures
      var rec' := BatchRecord(rec.prevOrders + Keys(actions), next);
      rec' != NEW_BATCH && StoreOk(terms, rec') && RecipientsOpen(l', rec', orphans)
  {
    var rec' := BatchRecord(rec.prevOrders + Keys(actions), next);
    assert RecipientsOk(terms, rec');
    hide RecipientsOk, FreshRecipients, Keys;
    if rec == NEW_BATCH {
      KeyInKeys(actions, 0);
    } else {
      assert rec.prevOrders != {};
    }
  }

  lemma {:induction false} InvWork(terms: Terms, s: State, orphans: Orphans)
    requires Inv(terms, s, orphans) && s.phase.Working?
    ensures StoreOk(terms, s.store) && RecipientsOpen(s.ledger, s.store, orphans)
    ensures s.store == NEW_BATCH ==> s.phase.actions != []
  {
  }

  /** The record after a submission, whether its write was lost or not. */
  lemma {:induction false} SentStore(p: Params, terms: Terms, s: State, s': State, orphans: Orphans, e: Event)
    requires Inv(terms, s, orphans) && e.Sent? && Step(p, s, e, s') && (e.stored || s.store != NEW_BATCH)
    ensures StoreOk(terms, s'.store) && RecipientsOpen(s'.ledger, s'.store, orphans)
    ensures s'.store != NEW_BATCH && Spends(e.tx, Anchor(s'.store.rbf))
    ensures s.store != NEW_BATCH ==> Anchor(s'.store.rbf) == Anchor(s.store.rbf)
  {
    hide Inv, Step, StoreOk, RecipientsOpen, FreshRecipients, TxOk, Dead, Spends, Open, Keys;
    SentTx(p, terms, s, s', orphans, e);
    SentFacts(p, s, s', e);
    InvWork(terms, s, orphans);
    if e.stored {
      StoredRecord(terms, s.ledger, s'.ledger, s.store, orphans, s.phase.actions, e.next);
    } else {
      SameOpen(s.ledger, s'.ledger, s.store, orphans);
    }
  }

  lemma {:induction false} SameOpen(l: Ledger, l': Ledger, rec: BatchRecord, orphans: Orphans)
    requires RecipientsOpen(l, rec, orphans) && l'.confirmed == l.confirmed && l'.spent == l.spent
    ensures RecipientsOpen(l', rec, orphans)
  {
  }

  lemma {:induction false} AnchoredMoves(l: Ledger, rec: BatchRecord, rec': BatchRecord, orphans: Orphans, tx: Tx)
    requires Placed(l, rec, orphans, tx)
    requires rec != NEW_BATCH ==> rec' != NEW_BATCH && Anchor(rec'.rbf) == Anchor(rec.rbf)
    ensures Placed(l, rec', orphans, tx)
  {
  }

  lemma {:induction false} RecordedKeeps(p: Params, terms: Terms, s: State, s': State, orphans: Orphans, e: Event)
    requires Inv(terms, s, orphans) && e.Sent? && Step(p, s, e, s') && (e.stored || s.store != NEW_BATCH)
    ensures Inv(terms, s', orphans)
  {
    hide Accepted, Inputs, FreshRecipients, RecipientsOk, PaysTerms, Live;
    SentTx(p, terms, s, s', orphans, e);
    SentStore(p, terms, s, s', orphans, e);
    var l, l' := s.ledger, s'.ledger;
    forall k | 0 <= k < |l'.broadcast|
      ensures TxOk(l', terms, l'.broadcast[k])
      ensures Placed(l', s'.store, orphans, l'.broadcast[k])
      ensures Unpaid(l', l'.broadcast[k])
    {
      var tx := l'.broadcast[k];
      SameLedgerView(l, l', terms, s'.store, orphans, tx);
      if k < |l.broadcast| {
        assert tx == l.broadcast[k];
        AnchoredMoves(l, s.store, s'.store, orphans, tx);
      } else {
        NewTxPlaced(l, p, s'.store, orphans, tx);
      }
    }
    AllClosedGrows(l, l', terms, orphans);
    SameLedgerOk(l, l', terms);
  }

  lemma {:induction false} SameLedgerOk(l: Ledger, l': Ledger, terms: Terms)
    requires l' == l.(broadcast := l'.broadcast)
    requires LedgerOk(l) && ConfirmedPaysTerms(l, terms)
    ensures LedgerOk(l') && ConfirmedPaysTerms(l', terms)
  {
    forall op | op in l'.outs ensures OutOk(l', op) { assert OutOk(l, op); }
    forall k | 0 <= k < |l'.confirmed| ensures Landed(l', l'.confirmed[k]) { assert Landed(l, l.confirmed[k]); }
  }

  /** Only the list of broadcast transactions differs. */
  lemma {:induction false} SameLedgerView(l: Ledger, l': Ledger, terms: Terms, rec: BatchRecord, orphans: Orphans,
                                          tx: Tx)
    requires l' == l.(broadcast := l'.broadcast)
    ensures TxOk(l', terms, tx) <==> TxOk(l, terms, tx)
    ensures Placed(l', rec, orphans, tx) <==> Placed(l, rec, orphans, tx)
    ensures Unpaid(l', tx) <==> Unpaid(l, tx)
    ensures Dead(l', tx) <==> Dead(l, tx)
  {
  }

  lemma {:induction false} NewTxPlaced(l: Ledger, p: Params, rec: BatchRecord, orphans: Orphans, tx: Tx)
    requires rec != NEW_BATCH && Spends(tx, Anchor(rec.rbf))
    requires forall i :: 0 <= i < |tx.outs| && tx.outs[i].to.P2wsh? ==> Open(l, orphans, tx.outs[i].to)
    requires forall a :: a in orphans ==> a.P2wsh?
    ensures Placed(l, rec, orphans, tx) && Unpaid(l, tx)
  {
  }

  // ------------------------------------------------ forgetting a chain

  /** An empty record, whatever was submitted before. */
  ghost predicate NoRecord(terms: Terms, s: State) {
    && s.store == NEW_BATCH && s.phase == Idle
    && LedgerOk(s.ledger) && ConfirmedPaysTerms(s.ledger, terms) && AtMostOnce(s.ledger)
    && forall k :: 0 <= k < |s.ledger.broadcast| ==>
         TxOk(s.ledger, terms, s.ledger.broadcast[k]) && Unpaid(s.ledger, s.ledger.broadcast[k])
  }

  /** An empty record although chains may still be live; all live payers of an HTLC share the input
      `payers` gives for it. */
  ghost predicate ForgotChains(terms: Terms, s: State, payers: Orphans) {
    && NoRecord(terms, s)
    && forall k :: 0 <= k < |s.ledger.broadcast| ==> Loose(s.ledger, payers, s.ledger.broadcast[k])
  }

  ghost predicate Loose(l: Ledger, payers: Orphans, tx: Tx) {
    Dead(l, tx) || Orphaned(payers, tx)
  }

  /** The shared inputs once the chain at an anchor is forgotten too. */
  ghost function Forgetting(l: Ledger, orphans: Orphans, anchor: OutPoint): Orphans {
    map a | a in orphans.Keys + LiveHtlcs(l) :: if a in orphans then orphans[a] else anchor
  }

  /** The part of the shared inputs that still matters. */
  ghost function StillLive(l: Ledger, payers: Orphans): Orphans {
    map a | a in payers.Keys * LiveHtlcs(l) :: payers[a]
  }

  /** While every HTLC a live transaction pays is barred, forgetting keeps the invariant. */
  lemma {:induction false} ForgottenKeeps(terms: Terms, s: State, payers: Orphans)
    requires ForgotChains(terms, s, payers) && AllBarred(s.ledger, terms)
    ensures Inv(terms, s, StillLive(s.ledger, payers))
  {
    var l := s.ledger;
    var orphans := StillLive(l, payers);
    hide LedgerOk, ConfirmedPaysTerms, AtMostOnce, TxOk, Unpaid, Closed, Barred, Dead, Spends;
    forall k | 0 <= k < |l.broadcast| ensures Placed(l, NEW_BATCH, orphans, l.broadcast[k]) {
      var tx := l.broadcast[k];
      assert Loose(l, payers, tx);
      forall i | 0 <= i < |tx.outs| && tx.outs[i].to.P2wsh? ensures Dead(l, tx) || tx.outs[i].to in LiveHtlcs(l) {
        assert Dead(l, tx) || Threatens(l, k, i);
      }
    }
    forall a | a in orphans ensures a.P2wsh? && Closed(l, terms, a) {
      ClosedIsBarred(l, terms, a);
    }
  }

  /** A live transaction of an earlier forgotten chain, or of the chain at the anchor. */
  ghost predicate PlacedAt(l: Ledger, orphans: Orphans, anchor: OutPoint, tx: Tx) {
    || Loose(l, orphans, tx)
    || (Spends(tx, anchor) && forall i :: 0 <= i < |tx.outs| && tx.outs[i].to.P2wsh? ==> tx.outs[i].to !in orphans)
  }

  lemma {:induction false} BecomesLoose(l: Ledger, orphans: Orphans, anchor: OutPoint, k: nat)
    requires k < |l.broadcast| && PlacedAt(l, orphans, anchor, l.broadcast[k])
    ensures Loose(l, Forgetting(l, orphans, anchor), l.broadcast[k])
  {
    var tx := l.broadcast[k];
    hide Dead, Spends;
    forall i | 0 <= i < |tx.outs| && tx.outs[i].to.P2wsh? ensures Dead(l, tx) || tx.outs[i].to in LiveHtlcs(l) {
      assert Dead(l, tx) || Threatens(l, k, i);
    }
  }

  /** A reset forgets the chain of the record. */
  lemma {:induction false} ForgottenByReset(terms: Terms, s: State, orphans: Orphans)
    requires Inv(terms, s, orphans)
    ensures ForgotChains(terms, State(s.ledger, NEW_BATCH, Idle),
                         Forgetting(s.ledger, orphans, Anchor(s.store.rbf)))
  {
    var l, anchor := s.ledger, Anchor(s.store.rbf);
    hide LedgerOk, ConfirmedPaysTerms, AtMostOnce, TxOk, Unpaid, Dead, Spends, Orphaned;
    forall k | 0 <= k < |l.broadcast|
      ensures TxOk(l, terms, l.broadcast[k]) && Unpaid(l, l.broadcast[k])
      ensures Loose(l, Forgetting(l, orphans, anchor), l.broadcast[k])
    {
      assert Placed(l, s.store, orphans, l.broadcast[k]);
      BecomesLoose(l, orphans, anchor, k);
    }
  }

  /** Losing the record of a first transaction forgets a chain before it was known. */
  lemma {:induction false} ForgottenFirst(p: Params, terms: Terms, s: State, s': State, orphans: Orphans, e: Event)
    requires Inv(terms, s, orphans) && s.store == NEW_BATCH && e.Sent? && !e.stored && Step(p, s, e, s')
    ensures ForgotChains(terms, s', Forgetting(s'.ledger, orphans, Anchor(e.next)))
  {
    hide Inv, Step, TxOk, LedgerOk, ConfirmedPaysTerms, FreshRecipients, Spends, AtMostOnce, Unpaid, Dead, Accepted,
      Inputs, Loose, PlacedAt, Placed, Open;
    SentTx(p, terms, s, s', orphans, e);
    SentFacts(p, s, s', e);
    InvLedger(terms, s, orphans);
    var l, l', anchor := s.ledger, s'.ledger, Anchor(e.next);
    SameLedgerOk(l, l', terms);
    OnlyBroadcastDiffers(l, l');
    forall k | 0 <= k < |l'.broadcast|
      ensures TxOk(l', terms, l'.broadcast[k]) && Unpaid(l', l'.broadcast[k])
      ensures Loose(l', Forgetting(l', orphans, anchor), l'.broadcast[k])
    {
      SameLedgerView(l, l', terms, s.store, orphans, l'.broadcast[k]);
      if k < |l.broadcast| {
        KnownTx(terms, s, orphans, k);
        WithoutRecord(l, l', orphans, anchor, l.broadcast[k]);
      } else {
        NewTxAt(l, l', orphans, anchor, e.tx);
      }
      BecomesLoose(l', orphans, anchor, k);
    }
  }

  lemma {:induction false} KnownTx(terms: Terms, s: State, orphans: Orphans, k: nat)
    requires Inv(terms, s, orphans) && k < |s.ledger.broadcast|
    ensures TxOk(s.ledger, terms, s.ledger.broadcast[k]) && Unpaid(s.ledger, s.ledger.broadcast[k])
    ensures Placed(s.ledger, s.store, orphans, s.ledger.broadcast[k])
  {
  }

  lemma {:induction false} WithoutRecord(l: Ledger, l': Ledger, orphans: Orphans, anchor: OutPoint, tx: Tx)
    requires Placed(l, NEW_BATCH, orphans, tx) && l'.spent == l.spent
    ensures PlacedAt(l', orphans, anchor, tx)
  {
  }

  lemma {:induction false} NewTxAt(l: Ledger, l': Ledger, orphans: Orphans, anchor: OutPoint, tx: Tx)
    requires Spends(tx, anchor) && l'.confirmed == l.confirmed
    requires forall i :: 0 <= i < |tx.outs| && tx.outs[i].to.P2wsh? ==> Open(l, orphans, tx.outs[i].to)
    ensures PlacedAt(l', orphans, anchor, tx) && Unpaid(l', tx)
  {
  }

  lemma {:induction false} OnlyBroadcastDiffers(l: Ledger, l': Ledger)
    requires l'.confirmed == l.confirmed
    ensures AtMostOnce(l') <==> AtMostOnce(l)
  {
  }

  /** A submission keeps the invariant, whether its record is kept or lost. */
  lemma {:induction false} SentKeeps(p: Params, terms: Terms, s: State, s': State, orphans: Orphans, e: Event)
    returns (orphans': Orphans)
    requires Inv(terms, s, orphans) && e.Sent? && Hyp(p, terms, s, e) && Step(p, s, e, s')
    ensures Inv(terms, s', orphans')
  {
    if e.stored || s.store != NEW_BATCH {
      orphans' := orphans;
      RecordedKeeps(p, terms, s, s', orphans, e);
    } else {
      ForgottenFirst(p, terms, s, s', orphans, e);
      hide Inv, ForgotChains, Accepted, Inputs, AllBarred, Spendable;
      var payers := Forgetting(s'.ledger, orphans, Anchor(e.next));
      orphans' := StillLive(s'.ledger, payers);
      ForgottenKeeps(terms, s', payers);
    }
  }

  /** So does a reset. */
  lemma {:induction false} MissingKeeps(p: Params, terms: Terms, s: State, s': State, orphans: Orphans, e: Event)
    returns (orphans': Orphans)
    requires Inv(terms, s, orphans) && e.Missing? && Hyp(p, terms, s, e) && Step(p, s, e, s')
    ensures Inv(terms, s', orphans')
  {
    hide AnswersMissing, AllBarred, ForgotChains;
    orphans' := orphans;
    if e.resetStored && s.store != NEW_BATCH {
      ForgottenByReset(terms, s, orphans);
      var payers := Forgetting(s.ledger, orphans, Anchor(s.store.rbf));
      orphans' := StillLive(s.ledger, payers);
      ForgottenKeeps(terms, s', payers);
    }
  }

  lemma {:induction false} SettledChainIsDead(s: State, tx: Tx)
    requires LedgerOk(s.ledger) && ChainSettled(s) && tx in s.ledger.broadcast
    requires Spends(tx, Anchor(s.store.rbf))
    ensures Dead(s.ledger, tx)
  {
    var l, anchor := s.ledger, Anchor(s.store.rbf);
    if k :| 0 <= k < |l.confirmed| && Spends(l.confirmed[k], anchor) {
      assert Landed(l, l.confirmed[k]);
      SpentSpends(l, tx, anchor);
    } else {
      var op :| op in l.spent && CommonInput(s, op);
      SpentSpends(l, tx, op);
    }
  }

  lemma {:induction false} SpentSpends(l: Ledger, tx: Tx, op: OutPoint)
    requires Spends(tx, op) && op in l.spent
    ensures Dead(l, tx)
  {
  }

  /** A settled chain pays nothing any more: what the source says when it resets is enough. */
  lemma {:induction false} SettledIsBarred(terms: Terms, s: State, orphans: Orphans)
    requires Inv(terms, s, orphans) && s.store != NEW_BATCH && ChainSettled(s)
    ensures AllBarred(s.ledger, terms)
  {
    var l := s.ledger;
    hide ChainSettled, Barred, LedgerOk;
    forall a | a in LiveHtlcs(l) ensures Barred(l, terms, a) {
      var k, i :| 0 <= k < |l.broadcast| && 0 <= i < |l.broadcast[k].outs|
                  && Threatens(l, k, i) && l.broadcast[k].outs[i].to == a;
      assert Placed(l, s.store, orphans, l.broadcast[k]);
      if Anchored(s.store, orphans, l.broadcast[k]) {
        SettledChainIsDead(s, l.broadcast[k]);
      } else {
        ClosedIsBarred(l, terms, a);
      }
    }
  }

  // ------------------------------------------------ confirmation

  lemma {:induction false} CreatedAre(tx: Tx, op: OutPoint)
    ensures op in Created(tx) <==> op.txid == tx.Id() && op.vout < |tx.outs|
    ensures op in Created(tx) ==> Created(tx)[op] == tx.outs[op.vout]
  {
    if op.txid == tx.Id() && op.vout < |tx.outs| {
      assert op == OutPoint(tx.Id(), op.vout);
    }
  }

  lemma {:induction false} ConfirmGrows(l: Ledger, tx: Tx)
    requires LedgerOk(l)
    ensures Grows(l, l.Confirm(tx))
  {
    forall op | op in l.outs ensures l.Confirm(tx).outs[op] == l.outs[op] {
      CreatedAre(tx, op);
      assert OutOk(l, op);
    }
  }

  lemma {:induction false} LandedGrows(l: Ledger, l': Ledger, tx: Tx)
    requires Grows(l, l') && Landed(l, tx)
    ensures Landed(l', tx)
  {
  }

  lemma {:induction false} ConfirmLedgerOk(l: Ledger, terms: Terms, tx: Tx)
    requires LedgerOk(l) && ConfirmedPaysTerms(l, terms) && Spendable(l, tx) && PaysTerms(terms, tx.outs)
    ensures LedgerOk(l.Confirm(tx)) && ConfirmedPaysTerms(l.Confirm(tx), terms)
  {
    var l' := l.Confirm(tx);
    ConfirmGrows(l, tx);
    forall op | op in l'.outs ensures OutOk(l', op) {
      CreatedAre(tx, op);
      if op in l.outs {
        assert OutOk(l, op);
      }
    }
    forall k | 0 <= k < |l'.confirmed| ensures Landed(l', l'.confirmed[k]) {
      if k < |l.confirmed| {
        assert Landed(l, l.confirmed[k]);
        LandedGrows(l, l', l.confirmed[k]);
      } else {
        NewlyLanded(l, tx);
      }
    }
    forall op | op in l'.spent ensures op in l'.outs {
      if op in Prevs(tx.ins) {
        var i :| 0 <= i < |tx.ins| && Prevs(tx.ins)[i] == op;
        assert tx.ins[i].prev in l.outs;
      }
    }
  }

  lemma {:induction false} NewlyLanded(l: Ledger, tx: Tx)
    ensures Landed(l.Confirm(tx), tx)
  {
    forall i | 0 <= i < |tx.outs| ensures OutPoint(tx.Id(), i) in l.Confirm(tx).outs {
      CreatedAre(tx, OutPoint(tx.Id(), i));
    }
    forall i | 0 <= i < |tx.ins| ensures tx.ins[i].prev in l.Confirm(tx).spent {
      assert Prevs(tx.ins)[i] == tx.ins[i].prev;
    }
  }

  lemma {:induction false} PaidAfter(l: Ledger, tx: Tx, a: Address)
    ensures Paid(l.Confirm(tx).confirmed, a) == Paid(l.confirmed, a) + CountTo(tx.outs, a)
  {
    assert DropLast(l.confirmed + [tx]) == l.confirmed;
  }

  lemma {:induction false} DeadGrows(l: Ledger, l': Ledger, tx: Tx)
    requires Grows(l, l') && Dead(l, tx)
    ensures Dead(l', tx)
  {
    var i :| 0 <= i < |tx.ins| && tx.ins[i].prev in l.spent;
    assert tx.ins[i].prev in l'.spent;
  }

  lemma {:induction false} SpendableIsAlive(l: Ledger, tx: Tx)
    requires Spendable(l, tx)
    ensures !Dead(l, tx)
  {
  }

  /** An open address is still unpaid after a confirmation, unless the chain is over now. */
  lemma {:induction false} StillOpen(l: Ledger, rec: BatchRecord, orphans: Orphans, tx: Tx, a: Address)
    requires Placed(l, rec, orphans, tx) && !Dead(l, tx) && Open(l, orphans, a) && a.P2wsh?
    requires !Over(l.Confirm(tx), rec)
    ensures Open(l.Confirm(tx), orphans, a)
  {
    PaidAfter(l, tx, a);
    CountToZero(tx.outs, a);
    if Anchored(rec, orphans, tx) {
      ConflictIsFinal(l, tx, tx, Anchor(rec.rbf));
    }
  }

  /** Two transactions that could both confirm do not pay the same address, or conflict. */
  lemma {:induction false} SamePayeeConflicts(l: Ledger, rec: BatchRecord, orphans: Orphans, a: Tx, b: Tx, i: nat,
                                              j: nat)
    requires Placed(l, rec, orphans, a) && Placed(l, rec, orphans, b) && !Dead(l, a) && !Dead(l, b)
    requires i < |a.outs| && j < |b.outs| && a.outs[i].to == b.outs[j].to && a.outs[i].to.P2wsh?
    ensures Dead(l.Confirm(a), b)
  {
    if Anchored(rec, orphans, a) && Anchored(rec, orphans, b) {
      ConflictIsFinal(l, a, b, Anchor(rec.rbf));
    } else {
      ConflictIsFinal(l, a, b, orphans[a.outs[i].to]);
    }
  }

  lemma {:induction false} StillUnpaid(l: Ledger, terms: Terms, rec: BatchRecord, orphans: Orphans, tx: Tx, b: Tx)
    requires Placed(l, rec, orphans, tx) && !Dead(l, tx)
    requires Placed(l, rec, orphans, b) && Unpaid(l, b) && LedgerOk(l)
    ensures Unpaid(l.Confirm(tx), b)
  {
    var l' := l.Confirm(tx);
    ConfirmGrows(l, tx);
    if Dead(l, b) {
      DeadGrows(l, l', b);
    } else if !Dead(l', b) {
      forall j | 0 <= j < |b.outs| && b.outs[j].to.P2wsh? ensures Paid(l'.confirmed, b.outs[j].to) == 0 {
        PaidAfter(l, tx, b.outs[j].to);
        CountToZero(tx.outs, b.outs[j].to);
        if CountTo(tx.outs, b.outs[j].to) > 0 {
          var i :| 0 <= i < |tx.outs| && tx.outs[i].to == b.outs[j].to;
          SamePayeeConflicts(l, rec, orphans, tx, b, i, j);
        }
      }
    }
  }

  lemma {:induction false} PlacedGrows(l: Ledger, l': Ledger, rec: BatchRecord, orphans: Orphans, tx: Tx)
    requires Grows(l, l') && Placed(l, rec, orphans, tx)
    ensures Placed(l', rec, orphans, tx)
  {
    if Dead(l, tx) {
      DeadGrows(l, l', tx);
    }
  }

  lemma {:induction false} TxOkGrows(l: Ledger, l': Ledger, terms: Terms, tx: Tx)
    requires Grows(l, l') && TxOk(l, terms, tx)
    ensures TxOk(l', terms, tx)
  {
  }

  /** Nothing is paid a second time by a confirmation. */
  lemma {:induction false} ConfirmPaysOnce(l: Ledger, terms: Terms, tx: Tx)
    requires AtMostOnce(l) && TxOk(l, terms, tx) && Unpaid(l, tx) && !Dead(l, tx)
    ensures AtMostOnce(l.Confirm(tx))
  {
    forall script: Script ensures Paid(l.Confirm(tx).confirmed, P2wsh(script)) <= 1 {
      PaidAfter(l, tx, P2wsh(script));
      CountToZero(tx.outs, P2wsh(script));
    }
  }

  /** Whatever the poll has chosen so far stays fine. */
  lemma {:induction false} ConfirmKeepsActions(terms: Terms, l: Ledger, rec: BatchRecord, orphans: Orphans, tx: Tx,
                                               actions: seq<ActionItem>)
    requires ActionsOk(l, terms, rec, orphans, actions) && Placed(l, rec, orphans, tx) && !Dead(l, tx)
    ensures ActionsOk(l.Confirm(tx), terms, rec, orphans, actions)
  {
    var l' := l.Confirm(tx);
    hide Placed, Open;
    forall i | 0 <= i < |actions| ensures ActionOk(l', terms, rec, orphans, actions[i]) {
      assert ActionOk(l, terms, rec, orphans, actions[i]);
      if actions[i].action == Initiate && !Over(l', rec) {
        StillOpen(l, rec, orphans, tx, actions[i].swap.LockAddress());
      }
    }
  }

  lemma {:induction false} ConfirmKeepsPhase(terms: Terms, s: State, orphans: Orphans, tx: Tx)
    requires Inv(terms, s, orphans) && Placed(s.ledger, s.store, orphans, tx) && !Dead(s.ledger, tx)
    ensures RecipientsOpen(s.ledger.Confirm(tx), s.store, orphans)
    ensures PhaseOk(s.ledger.Confirm(tx), terms, s.store, orphans, s.phase)
  {
    var l, l', rec := s.ledger, s.ledger.Confirm(tx), s.store;
    hide Placed, LedgerOk, BroadcastOk, AtMostOnce, AllClosed, ConfirmedPaysTerms, Open, ActionsOk, RestOk;
    if !Over(l', rec) {
      forall i | 0 <= i < |rec.rbf.recipients| ensures Open(l', orphans, rec.rbf.recipients[i].to) {
        StoreRecipients(terms, rec);
        StillOpen(l, rec, orphans, tx, rec.rbf.recipients[i].to);
      }
    }
    if s.phase != Idle {
      ConfirmKeepsActions(terms, l, rec, orphans, tx, s.phase.actions);
    }
  }

  lemma {:induction false} ConfirmKeepsBroadcast(l: Ledger, terms: Terms, rec: BatchRecord, orphans: Orphans, tx: Tx)
    requires LedgerOk(l) && BroadcastOk(l, terms, rec, orphans) && tx in l.broadcast && Spendable(l, tx)
    ensures BroadcastOk(l.Confirm(tx), terms, rec, orphans)
    ensures TxOk(l, terms, tx) && Unpaid(l, tx) && Placed(l, rec, orphans, tx) && !Dead(l, tx)
  {
    var l' := l.Confirm(tx);
    var k0 :| 0 <= k0 < |l.broadcast| && l.broadcast[k0] == tx;
    SpendableIsAlive(l, tx);
    hide Placed, Unpaid, Dead, TxOk, LedgerOk, Grows, Spendable;
    ConfirmGrows(l, tx);
    forall k | 0 <= k < |l'.broadcast|
      ensures TxOk(l', terms, l'.broadcast[k])
      ensures Placed(l', rec, orphans, l'.broadcast[k])
      ensures Unpaid(l', l'.broadcast[k])
    {
      TxOkGrows(l, l', terms, l.broadcast[k]);
      PlacedGrows(l, l', rec, orphans, l.broadcast[k]);
      StillUnpaid(l, terms, rec, orphans, tx, l.broadcast[k]);
    }
  }

  lemma {:induction false} ConfirmKeeps(p: Params, terms: Terms, s: State, s': State, orphans: Orphans, e: Event)
    requires Inv(terms, s, orphans) && e.Confirm? && Step(p, s, e, s')
    ensures Inv(terms, s', orphans)
  {
    var l, l', tx := s.ledger, s'.ledger, e.confirmed;
    hide Placed, Unpaid, Dead, TxOk, LedgerOk, BroadcastOk, AtMostOnce, AllClosed, ConfirmedPaysTerms,
      RecipientsOpen, PhaseOk, StoreOk, Grows, Spendable;
    ConfirmGrows(l, tx);
    ConfirmKeepsBroadcast(l, terms, s.store, orphans, tx);
    TxPaysTerms(l, terms, tx);
    ConfirmLedgerOk(l, terms, tx);
    ConfirmPaysOnce(l, terms, tx);
    ConfirmKeepsPhase(terms, s, orphans, tx);
    AllClosedGrows(l, l', terms, orphans);
  }

  lemma {:induction false} TxPaysTerms(l: Ledger, terms: Terms, tx: Tx)
    requires TxOk(l, terms, tx)
    ensures PaysTerms(terms, tx.outs)
  {
  }

  // ------------------------------------------------ the outside world

  /** A ledger that grew without confirming or receiving any of the wallet's transactions. */
  lemma {:induction false} OutsideKeeps(terms: Terms, s: State, s': State, orphans: Orphans)
    requires Inv(terms, s, orphans) && s' == s.(ledger := s'.ledger)
    requires s'.ledger.confirmed == s.ledger.confirmed && s'.ledger.broadcast == s.ledger.broadcast
    requires Grows(s.ledger, s'.ledger) && LedgerOk(s'.ledger)
    ensures Inv(terms, s', orphans)
  {
    var l, l' := s.ledger, s'.ledger;
    AllClosedGrows(l, l', terms, orphans);
    hide LedgerOk, AllClosed, PaysTerms, Anchored, Orphaned, StoreOk;
    forall k | 0 <= k < |l'.broadcast|
      ensures TxOk(l', terms, l'.broadcast[k])
      ensures Placed(l', s'.store, orphans, l'.broadcast[k])
      ensures Unpaid(l', l'.broadcast[k])
    {
      TxOkGrows(l, l', terms, l.broadcast[k]);
      PlacedGrows(l, l', s.store, orphans, l.broadcast[k]);
      if Dead(l, l.broadcast[k]) {
        DeadGrows(l, l', l.broadcast[k]);
      }
    }
    if s.phase != Idle {
      var actions := s.phase.actions;
      forall i | 0 <= i < |actions| ensures ActionOk(l', terms, s.store, orphans, actions[i]) {
        assert ActionOk(l, terms, s.store, orphans, actions[i]);
      }
    }
  }

  lemma {:induction false} DepositLedger(l: Ledger, op: OutPoint, out: TxOut)
    requires LedgerOk(l) && op.txid.Foreign? && op !in l.outs && out.amount >= 0
    ensures Grows(l, l.(outs := l.outs[op := out])) && LedgerOk(l.(outs := l.outs[op := out]))
  {
    var l' := l.(outs := l.outs[op := out]);
    forall o | o in l'.outs ensures OutOk(l', o) {
      if o != op {
        assert OutOk(l, o);
      }
    }
    forall k | 0 <= k < |l'.confirmed| ensures Landed(l', l'.confirmed[k]) {
      LandedGrows(l, l', l.confirmed[k]);
    }
  }

  lemma {:induction false} SpendLedger(l: Ledger, op: OutPoint)
    requires LedgerOk(l) && op in l.outs
    ensures Grows(l, l.(spent := l.spent + {op})) && LedgerOk(l.(spent := l.spent + {op}))
  {
    var l' := l.(spent := l.spent + {op});
    forall o | o in l'.outs ensures OutOk(l', o) {
      assert OutOk(l, o);
    }
    forall k | 0 <= k < |l'.confirmed| ensures Landed(l', l'.confirmed[k]) {
      LandedGrows(l, l', l.confirmed[k]);
    }
  }

  // ------------------------------------------------ whole runs

  /** Every step under the hypotheses keeps the invariant, with more orphans once a chain is
      forgotten. */
  lemma {:induction false} StepKeeps(p: Params, terms: Terms, s: State, s': State, orphans: Orphans, e: Event)
    returns (orphans': Orphans)
    requires Inv(terms, s, orphans) && Hyp(p, terms, s, e) && Step(p, s, e, s')
    ensures Inv(terms, s', orphans')
  {
    hide Inv, Hyp;
    orphans' := orphans;
    match e
    case Begin(_) => BeginKeeps(p, terms, s, s', orphans, e);
    case Look(_, _) => LookKeeps(p, terms, s, s', orphans, e);
    case Decide(_) => DecideKeeps(p, terms, s, s', orphans, e);
    case Sent(_, _, _, _, _, _, _, _) => orphans' := SentKeeps(p, terms, s, s', orphans, e);
    case Missing(_, _, _) => orphans' := MissingKeeps(p, terms, s, s', orphans, e);
    case Failed => FailedKeeps(terms, s, s', orphans);
    case Confirm(_) => ConfirmKeeps(p, terms, s, s', orphans, e);
    case Deposit(op, out) =>
      InvLedger(terms, s, orphans);
      DepositLedger(s.ledger, op, out);
      OutsideKeeps(terms, s, s', orphans);
    case Spend(op) =>
      InvLedger(terms, s, orphans);
      SpendLedger(s.ledger, op);
      OutsideKeeps(terms, s, s', orphans);
  }

  lemma {:induction false} InvLedger(terms: Terms, s: State, orphans: Orphans)
    requires Inv(terms, s, orphans)
    ensures LedgerOk(s.ledger) && ConfirmedPaysTerms(s.ledger, terms) && AtMostOnce(s.ledger)
  {
  }

  lemma {:induction false} FailedKeeps(terms: Terms, s: State, s': State, orphans: Orphans)
    requires Inv(terms, s, orphans) && s' == s.(phase := Idle)
    ensures Inv(terms, s', orphans)
  {
  }

  lemma {:induction false} InitialInv(terms: Terms, s: State)
    requires Initial(s)
    ensures Inv(terms, s, map[])
  {
    forall op | op in s.ledger.outs ensures OutOk(s.ledger, op) {
    }
  }

  lemma {:induction false} RunKeeps(p: Params, terms: Terms, states: seq<State>, events: seq<Event>, orphans: Orphans)
    returns (orphans': Orphans)
    requires Run(p, terms, states, events) && Inv(terms, states[0], orphans)
    ensures Inv(terms, Last(states), orphans')
  {
    hide Inv, Hyp, Step;
    if events == [] {
      orphans' := orphans;
    } else {
      var before := RunKeeps(p, terms, DropLast(states), DropLast(events), orphans);
      orphans' := StepKeeps(p, terms, states[|states| - 2], Last(states), before, Last(events));
    }
  }

  /** Over every run, each HTLC receives at most one confirmed payment: across resets, lost
      records, and whichever member of a chain confirms. */
  lemma {:induction false} NoDoublePayment(p: Params, terms: Terms, states: seq<State>, events: seq<Event>)
    requires Run(p, terms, states, events) && Initial(states[0])
    ensures AtMostOnce(Last(states).ledger)
  {
    hide Initial;
    InitialInv(terms, states[0]);
    var orphans := RunKeeps(p, terms, states, events, map[]);
  }
}
