/** The invariant of the protocol and the proof that every step keeps it.

    The invariant allows for transactions whose chain the record has forgotten. `orphans` maps each
    HTLC they pay to an input that all its payers share; these HTLCs are closed to new initiates. */
module Safety {
  import opened Bitcoin
  import opened Ledgers
  import opened RbfChain
  import opened Orders
  import opened Protocol

  /** For each HTLC that forgotten transactions pay, an input that all its payers share. */
  type Orphans = map<Address, OutPoint>

  // ------------------------------------------------ closed addresses

  /** What the on-chain guard makes of an answer: too many outputs, or enough paid. */
  predicate Blocks(us: seq<Utxo>, amount: int) {
    |us| > 3 || ConfirmedTotal(us) >= amount
  }

  /** Any honest and complete answer for the address makes the guard refuse. */
  ghost predicate Guarded(l: Ledger, terms: Terms, a: Address) {
    forall us :: HonestView(l, {}, us, a) ==> Blocks(us, terms(a))
  }

  /** No later poll can choose to initiate at this address. */
  ghost predicate Closed(l: Ledger, terms: Terms, a: Address) {
    Guarded(l, terms, a) || exists op :: op in l.outs && l.outs[op].to == a && op in l.spent
  }

  // ------------------------------------------------ the invariant

  /** Amounts are not negative, and an output of a known transaction id is that transaction's. */
  ghost predicate OutOk(l: Ledger, op: OutPoint)
    requires op in l.outs
  {
    && l.outs[op].amount >= 0
    && (op.txid.TxHash? ==> op.vout < |op.txid.outs| && l.outs[op] == op.txid.outs[op.vout])
  }

  ghost predicate Landed(l: Ledger, tx: Tx) {
    && (forall i :: 0 <= i < |tx.outs| ==> OutPoint(tx.Id(), i) in l.outs)
    && (forall i :: 0 <= i < |tx.ins| ==> tx.ins[i].prev in l.spent)
  }

  ghost predicate LedgerOk(l: Ledger) {
    && (forall op :: op in l.outs ==> OutOk(l, op))
    && (forall k :: 0 <= k < |l.confirmed| ==> Landed(l, l.confirmed[k]))
    && l.spent <= l.outs.Keys
  }

  /** Outputs to HTLCs carry the agreed amount, none is paid twice by the transaction. */
  ghost predicate PaysTerms(terms: Terms, outs: seq<TxOut>) {
    && (forall i :: 0 <= i < |outs| ==>
      outs[i].amount >= 0 && (outs[i].to.P2wsh? ==> outs[i].amount == terms(outs[i].to)))
    && (forall script: Script :: CountTo(outs, P2wsh(script)) <= 1)
  }

  ghost predicate TxOk(l: Ledger, terms: Terms, tx: Tx) {
    && |tx.ins| > 0
    && (forall i :: 0 <= i < |tx.ins| ==> tx.ins[i].prev in l.outs)
    && NoDup(Prevs(tx.ins))
    && PaysTerms(terms, tx.outs)
  }

  ghost predicate Anchored(rec: BatchRecord, orphans: Orphans, tx: Tx) {
    && rec != NEW_BATCH && Spends(tx, Anchor(rec.rbf))
    && forall i :: 0 <= i < |tx.outs| ==> tx.outs[i].to !in orphans
  }

  /** Every HTLC the transaction pays is an orphan, and the transaction spends its shared input. */
  ghost predicate Orphaned(orphans: Orphans, tx: Tx) {
    forall i :: 0 <= i < |tx.outs| && tx.outs[i].to.P2wsh? ==>
      tx.outs[i].to in orphans && Spends(tx, orphans[tx.outs[i].to])
  }

  ghost predicate Placed(l: Ledger, rec: BatchRecord, orphans: Orphans, tx: Tx) {
    Dead(l, tx) || Anchored(rec, orphans, tx) || Orphaned(orphans, tx)
  }

  /** A transaction that can still confirm pays no HTLC that has been paid. */
  ghost predicate Unpaid(l: Ledger, tx: Tx) {
    Dead(l, tx) || forall i :: 0 <= i < |tx.outs| && tx.outs[i].to.P2wsh? ==> Paid(l.confirmed, tx.outs[i].to) == 0
  }

  ghost predicate RecipientsOk(terms: Terms, rec: BatchRecord) {
    && (forall i :: 0 <= i < |rec.rbf.recipients| ==>
          && rec.rbf.recipients[i].to.P2wsh?
          && BatchKey(Initiate, rec.rbf.recipients[i].to.script.secretHash) in rec.prevOrders)
    && (forall i :: 0 <= i < |rec.rbf.recipients| ==> rec.rbf.recipients[i].amount == terms(rec.rbf.recipients[i].to))
    && (forall script: Script :: CountTo(rec.rbf.recipients, P2wsh(script)) <= 1)
  }

  ghost predicate StoreOk(terms: Terms, rec: BatchRecord) {
    rec == NEW_BATCH || (Live(rec.rbf) && rec.prevOrders != {} && RecipientsOk(terms, rec))
  }

  /** The chain of the record is over. */
  ghost predicate Over(l: Ledger, rec: BatchRecord) {
    rec != NEW_BATCH && Anchor(rec.rbf) in l.spent
  }

  ghost predicate Open(l: Ledger, orphans: Orphans, a: Address) {
    Paid(l.confirmed, a) == 0 && a !in orphans
  }

  ghost predicate RecipientsOpen(l: Ledger, rec: BatchRecord, orphans: Orphans) {
    Over(l, rec) || forall i :: 0 <= i < |rec.rbf.recipients| ==> Open(l, orphans, rec.rbf.recipients[i].to)
  }

  ghost predicate DistinctKeys(actions: seq<ActionItem>) {
    actions == [] || (DistinctKeys(DropLast(actions)) && KeyOf(Last(actions)) !in Keys(DropLast(actions)))
  }

  ghost predicate ActionOk(l: Ledger, terms: Terms, rec: BatchRecord, orphans: Orphans, a: ActionItem) {
    && KeyOf(a) !in rec.prevOrders
    && (a.action == Initiate ==>
          && a.swap.amount == terms(a.swap.LockAddress())
          && (Over(l, rec) || Open(l, orphans, a.swap.LockAddress())))
  }

  ghost predicate ActionsOk(l: Ledger, terms: Terms, rec: BatchRecord, orphans: Orphans, actions: seq<ActionItem>) {
    && DistinctKeys(actions)
    && (forall i :: 0 <= i < |actions| ==> ActionOk(l, terms, rec, orphans, actions[i]))
  }

  ghost predicate WorkOk(l: Ledger, terms: Terms, rec: BatchRecord, orphans: Orphans, actions: seq<ActionItem>) {
    ActionsOk(l, terms, rec, orphans, actions) && (rec == NEW_BATCH ==> actions != [])
  }

  /** The orders still to be looked at have keys of their own. */
  ghost predicate RestOk(rest: seq<Order>, actions: seq<ActionItem>) {
    && NoSameKey(rest)
    && forall j :: 0 <= j < |rest| && OrderKey(rest[j]).Some? ==> OrderKey(rest[j]).value !in Keys(actions)
  }

  ghost predicate PhaseOk(l: Ledger, terms: Terms, rec: BatchRecord, orphans: Orphans, phase: Phase) {
    match phase
    case Idle => true
    case Choosing(rest, actions) => ActionsOk(l, terms, rec, orphans, actions) && RestOk(rest, actions)
    case Working(actions) => WorkOk(l, terms, rec, orphans, actions)
  }

  ghost predicate BroadcastOk(l: Ledger, terms: Terms, rec: BatchRecord, orphans: Orphans) {
    forall k :: 0 <= k < |l.broadcast| ==>
      && TxOk(l, terms, l.broadcast[k])
      && Placed(l, rec, orphans, l.broadcast[k])
      && Unpaid(l, l.broadcast[k])
  }

  ghost predicate AllClosed(l: Ledger, terms: Terms, orphans: Orphans) {
    forall a :: a in orphans ==> a.P2wsh? && Closed(l, terms, a)
  }

  ghost predicate ConfirmedPaysTerms(l: Ledger, terms: Terms) {
    forall k :: 0 <= k < |l.confirmed| ==> PaysTerms(terms, l.confirmed[k].outs)
  }

  ghost predicate Inv(terms: Terms, s: State, orphans: Orphans) {
    && LedgerOk(s.ledger)
    && ConfirmedPaysTerms(s.ledger, terms)
    && BroadcastOk(s.ledger, terms, s.store, orphans)
    && StoreOk(terms, s.store)
    && RecipientsOpen(s.ledger, s.store, orphans)
    && PhaseOk(s.ledger, terms, s.store, orphans, s.phase)
    && AtMostOnce(s.ledger)
    && AllClosed(s.ledger, terms, orphans)
  }

  // ------------------------------------------------ ledgers only grow

  ghost predicate Grows(l: Ledger, l': Ledger) {
    && (forall op :: op in l.outs ==> op in l'.outs && l'.outs[op] == l.outs[op])
    && l.spent <= l'.spent
  }

  function Restrict(us: seq<Utxo>, l: Ledger): seq<Utxo> {
    if us == [] then []
    else if Last(us).status.Confirmed? && Last(us).op in l.outs then Restrict(DropLast(us), l) + [Last(us)]
    else Restrict(DropLast(us), l)
  }

  lemma {:induction false} RestrictMember(us: seq<Utxo>, l: Ledger, u: Utxo)
    ensures u in Restrict(us, l) <==> u in us && u.status.Confirmed? && u.op in l.outs
  {
    if us == [] {
    } else {
      RestrictMember(DropLast(us), l, u);
      assert u in us <==> u in DropLast(us) || u == Last(us);
    }
  }

  lemma {:induction false} RestrictKeeps(us: seq<Utxo>, l: Ledger)
    requires NoDup(Ops(us)) && forall i :: 0 <= i < |us| ==> us[i].amount >= 0
    ensures NoDup(Ops(Restrict(us, l))) && |Restrict(us, l)| <= |us|
    ensures ConfirmedTotal(Restrict(us, l)) <= ConfirmedTotal(us)
  {
    hide NoDup, Ops;
    if us == [] {
    } else {
      var d, u := DropLast(us), Last(us);
      assert us == d + [u];
      NoDupAppend(d, u);
      RestrictKeeps(d, l);
      forall v | v in Restrict(d, l) ensures v.op != u.op {
        RestrictMember(d, l, v);
      }
      NoDupAppend(Restrict(d, l), u);
      assert DropLast(Restrict(d, l) + [u]) == Restrict(d, l);
    }
  }

  lemma {:induction false} InOps(us: seq<Utxo>, op: OutPoint) returns (u: Utxo)
    requires op in Ops(us)
    ensures u in us && u.op == op
  {
    var i :| 0 <= i < |us| && Ops(us)[i] == op;
    u := us[i];
  }

  lemma {:induction false} OpsMember(us: seq<Utxo>, u: Utxo)
    requires u in us
    ensures u.op in Ops(us)
  {
    var i :| 0 <= i < |us| && us[i] == u;
    assert Ops(us)[i] == u.op;
  }

  /** The part of an honest answer a smaller ledger knows of is honest for that ledger. */
  lemma {:induction false} RestrictIsHonest(l: Ledger, l': Ledger, us: seq<Utxo>, a: Address)
    requires Grows(l, l') && HonestView(l', {}, us, a)
    ensures HonestView(l, {}, Restrict(us, l), a)
  {
    var r := Restrict(us, l);
    RestrictKeeps(us, l);
    forall i | 0 <= i < |r| ensures r[i] in us && r[i].op in l.outs && l.outs[r[i].op] == TxOut(a, r[i].amount) {
      RestrictMember(us, l, r[i]);
      var j :| 0 <= j < |us| && us[j] == r[i];
    }
    forall op | op in l.outs && l.outs[op].to == a ensures op in Ops(ConfirmedOnly(r)) {
      assert op in Ops(ConfirmedOnly(us));
      var u := InOps(ConfirmedOnly(us), op);
      ConfirmedOnlyMember(us, u);
      RestrictMember(us, l, u);
      ConfirmedOnlyMember(r, u);
      OpsMember(ConfirmedOnly(r), u);
    }
  }

  /** A closed address stays closed. */
  lemma {:induction false} ClosedGrows(l: Ledger, l': Ledger, terms: Terms, a: Address)
    requires Grows(l, l') && Closed(l, terms, a)
    ensures Closed(l', terms, a)
  {
    if Guarded(l, terms, a) {
      forall us | HonestView(l', {}, us, a) ensures Blocks(us, terms(a)) {
        RestrictIsHonest(l, l', us, a);
        RestrictKeeps(us, l);
      }
    }
  }

  lemma {:induction false} AllClosedGrows(l: Ledger, l': Ledger, terms: Terms, orphans: Orphans)
    requires Grows(l, l') && AllClosed(l, terms, orphans)
    ensures AllClosed(l', terms, orphans)
  {
    forall a | a in orphans ensures a.P2wsh? && Closed(l', terms, a) {
      ClosedGrows(l, l', terms, a);
    }
  }

  // ------------------------------------------------ payments and the guard

  lemma {:induction false} TotalNotNegative(us: seq<Utxo>)
    requires forall i :: 0 <= i < |us| ==> us[i].amount >= 0
    ensures ConfirmedTotal(us) >= 0
  {
    if us == [] {
    } else {
      TotalNotNegative(DropLast(us));
    }
  }

  lemma {:induction false} TotalAtLeastOne(us: seq<Utxo>, u: Utxo)
    requires forall i :: 0 <= i < |us| ==> us[i].amount >= 0
    requires u in us && u.status.Confirmed?
    ensures ConfirmedTotal(us) >= u.amount
  {
    TotalNotNegative(DropLast(us));
    if u != Last(us) {
      assert us == DropLast(us) + [Last(us)];
      TotalAtLeastOne(DropLast(us), u);
    }
  }

  /** A confirmed payment of the agreed amount makes the guard refuse from then on. */
  lemma {:induction false} PaidIsGuarded(l: Ledger, terms: Terms, script: Script)
    requires LedgerOk(l) && ConfirmedPaysTerms(l, terms) && Paid(l.confirmed, P2wsh(script)) > 0
    ensures Guarded(l, terms, P2wsh(script))
  {
    var a := P2wsh(script);
    var k, i := PaidWitness(l.confirmed, a);
    var tx := l.confirmed[k];
    var op := OutPoint(tx.Id(), i);
    assert Landed(l, tx) && op in l.outs && OutOk(l, op);
    assert l.outs[op] == tx.outs[i];
    forall us | HonestView(l, {}, us, a) ensures Blocks(us, terms(a)) {
      assert op in Ops(ConfirmedOnly(us));
      var u := InOps(ConfirmedOnly(us), op);
      ConfirmedOnlyMember(us, u);
      var j :| 0 <= j < |us| && us[j] == u;
      TotalAtLeastOne(us, u);
    }
  }

  lemma {:induction false} PaidWitness(txs: seq<Tx>, a: Address) returns (k: nat, i: nat)
    requires Paid(txs, a) > 0
    ensures k < |txs| && i < |txs[k].outs| && txs[k].outs[i].to == a
  {
    if CountTo(Last(txs).outs, a) > 0 {
      CountToZero(Last(txs).outs, a);
      k := |txs| - 1;
      i :| 0 <= i < |txs[k].outs| && txs[k].outs[i].to == a;
    } else {
      k, i := PaidWitness(DropLast(txs), a);
    }
  }

  // ------------------------------------------------ the guard, computed on the ledger

  ghost function OpSet(us: seq<Utxo>): set<OutPoint> {
    set op | op in Ops(us)
  }

  /** The outputs are those of the ledger, with their amounts, each once. */
  ghost predicate TrueOuts(l: Ledger, us: seq<Utxo>) {
    NoDup(Ops(us)) && forall i :: 0 <= i < |us| ==> us[i].op in l.outs && l.outs[us[i].op].amount == us[i].amount
  }

  lemma {:induction false} WorthRemove(l: Ledger, ops: set<OutPoint>, op: OutPoint)
    requires ops <= l.outs.Keys && op in ops
    ensures Worth(l, ops) == l.outs[op].amount + Worth(l, ops - {op})
    decreases |ops|
  {
    var first :| first in ops && Worth(l, ops) == l.outs[first].amount + Worth(l, ops - {first});
    if first == op {
    } else {
      WorthRemove(l, ops - {first}, op);
      WorthRemove(l, ops - {op}, first);
      assert ops - {first} - {op} == ops - {op} - {first};
    }
  }

  /** A list of the ledger's outputs adds up to what their set is worth. */
  lemma {:induction false} ListWorth(l: Ledger, us: seq<Utxo>)
    requires TrueOuts(l, us)
    ensures OpSet(us) <= l.outs.Keys && SumUtxos(us) == Worth(l, OpSet(us)) && |us| == |OpSet(us)|
  {
    forall op | op in OpSet(us) ensures op in l.outs {
      var u := InOps(us, op);
    }
    if us != [] {
      var d, u := DropLast(us), Last(us);
      assert us == d + [u];
      NoDupAppend(d, u);
      assert TrueOuts(l, d);
      ListWorth(l, d);
      assert Ops(us) == Ops(d) + [u.op];
      forall v | v in d ensures v.op != u.op {
      }
      assert u.op !in OpSet(d) by {
        if u.op in OpSet(d) {
          var v := InOps(d, u.op);
        }
      }
      assert OpSet(us) == OpSet(d) + {u.op} && OpSet(us) - {u.op} == OpSet(d);
      WorthRemove(l, OpSet(us), u.op);
    } else {
      assert OpSet(us) == {};
    }
  }

  lemma {:induction false} TotalOfConfirmed(us: seq<Utxo>)
    ensures ConfirmedTotal(us) == SumUtxos(ConfirmedOnly(us)) && |ConfirmedOnly(us)| <= |us|
  {
    if us == [] {
    } else {
      TotalOfConfirmed(DropLast(us));
      assert DropLast(ConfirmedOnly(DropLast(us)) + [Last(us)]) == ConfirmedOnly(DropLast(us));
    }
  }

  /** The confirmed part of a complete answer is exactly the ledger's outputs at the address. */
  lemma {:induction false} CompleteAnswer(l: Ledger, us: seq<Utxo>, a: Address)
    requires HonestView(l, {}, us, a)
    ensures TrueOuts(l, ConfirmedOnly(us)) && OpSet(ConfirmedOnly(us)) == OutsAt(l, a)
  {
    var c := ConfirmedOnly(us);
    ConfirmedOnlyNoDup(us);
    forall i | 0 <= i < |c| ensures c[i].op in l.outs && l.outs[c[i].op] == TxOut(a, c[i].amount) {
      ConfirmedOnlyMember(us, c[i]);
      var j :| 0 <= j < |us| && us[j] == c[i];
    }
    forall op | op in OpSet(c) ensures op in OutsAt(l, a) {
      var u := InOps(c, op);
      var i :| 0 <= i < |c| && c[i] == u;
    }
  }

  lemma {:induction false} NoOuts(l: Ledger)
    ensures TrueOuts(l, []) && OpSet([]) == {}
  {
    assert Ops([]) == [];
  }

  lemma {:induction false} AppendOut(l: Ledger, d: seq<Utxo>, u: Utxo)
    requires TrueOuts(l, d) && u.op !in OpSet(d) && u.op in l.outs && l.outs[u.op].amount == u.amount
    ensures TrueOuts(l, d + [u]) && OpSet(d + [u]) == OpSet(d) + {u.op}
  {
    forall v | v in d ensures v.op != u.op {
      OpsMember(d, v);
    }
    NoDupAppend(d, u);
    assert Ops(d + [u]) == Ops(d) + [u.op];
  }

  /** A complete answer without unconfirmed outputs. */
  lemma {:induction false} ListOuts(l: Ledger, ops: set<OutPoint>) returns (us: seq<Utxo>)
    requires ops <= l.outs.Keys
    ensures TrueOuts(l, us) && OpSet(us) == ops && AllConfirmed(us)
    decreases |ops|
  {
    hide TrueOuts, OpSet;
    if ops == {} {
      us := [];
      NoOuts(l);
    } else {
      var op :| op in ops;
      var d := ListOuts(l, ops - {op});
      var u := Utxo(op, l.outs[op].amount, Bitcoin.Confirmed(0));
      us := d + [u];
      assert DropLast(us) == d && Last(us) == u;
      AppendOut(l, d, u);
    }
  }

  lemma {:induction false} ListedIsHonest(l: Ledger, a: Address) returns (us: seq<Utxo>)
    requires LedgerOk(l)
    ensures HonestView(l, {}, us, a) && AllConfirmed(us)
  {
    us := ListOuts(l, OutsAt(l, a));
    ConfirmedOnlyIdentity(us);
    forall i | 0 <= i < |us| ensures us[i].amount >= 0 && l.outs[us[i].op] == TxOut(a, us[i].amount) {
      assert us[i].op == Ops(us)[i];
      assert us[i].op in OpSet(us);
      assert OutOk(l, us[i].op);
    }
    forall op | op in l.outs && l.outs[op].to == a ensures op in Ops(ConfirmedOnly(us)) {
      assert op in OpSet(us);
    }
  }

  /** What a complete, confirmed answer says of the guard is what the ledger says. */
  lemma {:induction false} ConfirmedAnswerDecides(l: Ledger, terms: Terms, us: seq<Utxo>, a: Address)
    requires HonestView(l, {}, us, a) && AllConfirmed(us)
    ensures Blocks(us, terms(a)) <==> Full(l, terms, a)
  {
    hide HonestView;
    CompleteAnswer(l, us, a);
    ConfirmedOnlyIdentity(us);
    ListWorth(l, us);
    TotalOfConfirmed(us);
  }

  /** Every complete answer makes the guard refuse exactly when the address is full. */
  lemma {:induction false} GuardedIsFull(l: Ledger, terms: Terms, a: Address)
    requires LedgerOk(l)
    ensures Guarded(l, terms, a) <==> Full(l, terms, a)
  {
    var us := ListedIsHonest(l, a);
    ConfirmedAnswerDecides(l, terms, us, a);
    if Full(l, terms, a) {
      forall us | HonestView(l, {}, us, a) ensures Blocks(us, terms(a)) {
        CompleteAnswer(l, us, a);
        ListWorth(l, ConfirmedOnly(us));
        TotalOfConfirmed(us);
      }
    }
  }

  lemma {:induction false} ClosedIsBarred(l: Ledger, terms: Terms, a: Address)
    requires LedgerOk(l)
    ensures Closed(l, terms, a) <==> Barred(l, terms, a)
  {
    GuardedIsFull(l, terms, a);
    hide Guarded, Full;
    if op :| op in OutsAt(l, a) * l.spent {
      assert op in l.outs && l.outs[op].to == a && op in l.spent;
    }
    if op :| op in l.outs && l.outs[op].to == a && op in l.spent {
      assert op in OutsAt(l, a) * l.spent;
    }
  }
}
