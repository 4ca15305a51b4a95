/** The chain as the wallet depends on it: every output ever confirmed, the outpoints already
    consumed, and the wallet's own transactions (submitted at some time, confirmed so far). */
module Ledgers {
  import opened Bitcoin

  datatype Ledger = Ledger(
    outs: map<OutPoint, TxOut>,
    spent: set<OutPoint>,
    broadcast: seq<Tx>,
    confirmed: seq<Tx>)
  {
    function Broadcast(tx: Tx): Ledger { this.(broadcast := broadcast + [tx]) }

    function Confirm(tx: Tx): Ledger {
      this.(outs := outs + Created(tx),
            spent := spent + (set op | op in Prevs(tx.ins)),
            confirmed := confirmed + [tx])
    }
  }

  function Created(tx: Tx): map<OutPoint, TxOut> {
    map i: nat | 0 <= i < |tx.outs| :: OutPoint(tx.Id(), i) := tx.outs[i]
  }

  /** Every input exists and is unspent, and no outpoint is used twice. */
  predicate Spendable(l: Ledger, tx: Tx) {
    && (forall i :: 0 <= i < |tx.ins| ==> tx.ins[i].prev in l.outs && tx.ins[i].prev !in l.spent)
    && (forall i, j :: 0 <= i < j < |tx.ins| ==> tx.ins[i].prev != tx.ins[j].prev)
  }

  /** A transaction with a consumed input can never confirm again. */
  ghost predicate Dead(l: Ledger, tx: Tx) {
    exists i :: 0 <= i < |tx.ins| && tx.ins[i].prev in l.spent
  }

  ghost predicate Spends(tx: Tx, op: OutPoint) {
    exists i :: 0 <= i < |tx.ins| && tx.ins[i].prev == op
  }

  /** Confirmed outputs to the address over a list of transactions. */
  function Paid(txs: seq<Tx>, a: Address): nat {
    if txs == [] then 0 else Paid(DropLast(txs), a) + CountTo(Last(txs).outs, a)
  }
}
