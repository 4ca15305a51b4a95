/** Bitcoin data as the swap wallet sees it.

    A hash commitment (script address, transaction id) is represented by the value it commits
    to, so two commitments are equal exactly when the committed values are. */
module Bitcoin {
  newtype byte = b: int | 0 <= b < 256
  type Bytes = seq<byte>
  type Pos = n: int | 1 <= n witness 1

  datatype Option<+T> = None | Some(value: T)

  datatype Script = HtlcScript(initiator: Bytes, redeemer: Bytes, secretHash: Bytes, waitBlock: int)
  datatype Address = P2wpkh(key: Bytes) | P2wsh(script: Script)

  datatype TxOut = TxOut(to: Address, amount: int)
  datatype OutPoint = OutPoint(txid: TxId, vout: nat)
  datatype TxId =
    | Foreign(name: string)
    | TxHash(prevs: seq<OutPoint>, sequences: seq<int>, outs: seq<TxOut>)

  datatype Status = NoStatus | Pending | Confirmed(height: nat)
  datatype Utxo = Utxo(op: OutPoint, amount: int, status: Status)

  /** What the wallet puts in an input to unlock it. The signed amount is the value the
      signature hash commits to. */
  datatype Witness =
    | Unsigned
    | KeyWitness(amount: int)
    | RedeemWitness(script: Script, secret: Bytes, amount: int)
    | RefundWitness(script: Script, amount: int)

  datatype TxIn = TxIn(prev: OutPoint, sequence: int, unlock: Witness)
  datatype Tx = Tx(ins: seq<TxIn>, outs: seq<TxOut>) {
    function Id(): TxId {
      TxHash(Prevs(ins), seq(|ins|, i requires 0 <= i < |ins| => ins[i].sequence), outs)
    }
  }

  datatype Action = Initiate | Redeem | Refund | OtherAction(name: string)

  datatype Swap = Swap(network: string, amount: int, initiator: Bytes, redeemer: Bytes,
                       secretHash: Bytes, waitBlock: int)
  {
    function LockScript(): Script { HtlcScript(initiator, redeemer, secretHash, waitBlock) }
    function LockAddress(): Address { P2wsh(LockScript()) }
  }

  datatype ActionItem = ActionItem(action: Action, swap: Swap, secret: Bytes)

  function Prevs(ins: seq<TxIn>): seq<OutPoint> {
    seq(|ins|, i requires 0 <= i < |ins| => ins[i].prev)
  }

  function Ops(us: seq<Utxo>): seq<OutPoint> {
    seq(|us|, i requires 0 <= i < |us| => us[i].op)
  }

  ghost predicate NoDup<T>(s: seq<T>) {
    forall i, j :: 0 <= i < j < |s| ==> s[i] != s[j]
  }

  function DropLast<T>(s: seq<T>): seq<T>
    requires |s| > 0
  {
    s[..|s| - 1]
  }

  function Last<T>(s: seq<T>): T
    requires |s| > 0
  {
    s[|s| - 1]
  }

  function SumUtxos(us: seq<Utxo>): int {
    if us == [] then 0 else SumUtxos(DropLast(us)) + Last(us).amount
  }

  function SumOuts(outs: seq<TxOut>): int {
    if outs == [] then 0 else SumOuts(DropLast(outs)) + Last(outs).amount
  }

  /** Outputs of the sequence that pay the address. */
  function CountTo(outs: seq<TxOut>, a: Address): nat {
    if outs == [] then 0 else CountTo(DropLast(outs), a) + if Last(outs).to == a then 1 else 0
  }

  function ConfirmedOnly(us: seq<Utxo>): seq<Utxo> {
    if us == [] then []
    else if Last(us).status.Confirmed? then ConfirmedOnly(DropLast(us)) + [Last(us)]
    else ConfirmedOnly(DropLast(us))
  }

  /** The previous outputs a signer knows; the last entry for an outpoint wins. */
  function Amounts(us: seq<Utxo>): map<OutPoint, int> {
    if us == [] then map[] else Amounts(DropLast(us))[Last(us).op := Last(us).amount]
  }

  function AmountOf(m: map<OutPoint, int>, op: OutPoint): int {
    if op in m then m[op] else 0
  }

  function SumPrevs(m: map<OutPoint, int>, ins: seq<TxIn>): int {
    if ins == [] then 0 else SumPrevs(m, DropLast(ins)) + AmountOf(m, Last(ins).prev)
  }

  function TotalFee(m: map<OutPoint, int>, tx: Tx): int {
    SumPrevs(m, tx.ins) - SumOuts(tx.outs)
  }

  // ---------------------------------------------------------------- lemmas

  lemma {:induction false} OpsConcat(a: seq<Utxo>, b: seq<Utxo>)
    ensures Ops(a + b) == Ops(a) + Ops(b)
  {
  }

  lemma {:induction false} SumUtxosConcat(a: seq<Utxo>, b: seq<Utxo>)
    ensures SumUtxos(a + b) == SumUtxos(a) + SumUtxos(b)
  {
    if b == [] {
      assert a + b == a;
    } else {
      assert DropLast(a + b) == a + DropLast(b);
      SumUtxosConcat(a, DropLast(b));
    }
  }

  lemma {:induction false} CountToConcat(s: seq<TxOut>, t: seq<TxOut>, a: Address)
    ensures CountTo(s + t, a) == CountTo(s, a) + CountTo(t, a)
  {
    if t == [] {
      assert s + t == s;
    } else {
      assert DropLast(s + t) == s + DropLast(t);
      CountToConcat(s, DropLast(t), a);
    }
  }

  lemma {:induction false} CountToZero(outs: seq<TxOut>, a: Address)
    ensures CountTo(outs, a) == 0 <==> forall i :: 0 <= i < |outs| ==> outs[i].to != a
  {
    if outs == [] {
    } else {
      CountToZero(DropLast(outs), a);
      assert outs == DropLast(outs) + [Last(outs)];
    }
  }

  /** Filtering keeps exactly the confirmed outputs. */
  lemma {:induction false} ConfirmedOnlyMember(us: seq<Utxo>, u: Utxo)
    ensures u in ConfirmedOnly(us) <==> u in us && u.status.Confirmed?
  {
    if us == [] {
    } else {
      ConfirmedOnlyMember(DropLast(us), u);
      assert u in us <==> u in DropLast(us) || u == Last(us);
    }
  }

  /** It keeps them in order, each as often as it was listed. */
  lemma {:induction false} ConfirmedOnlyConcat(a: seq<Utxo>, b: seq<Utxo>)
    ensures ConfirmedOnly(a + b) == ConfirmedOnly(a) + ConfirmedOnly(b)
    ensures |b| == 1 ==> ConfirmedOnly(b) == if b[0].status.Confirmed? then b else []
  {
    if b == [] {
      assert a + b == a;
    } else {
      assert DropLast(a + b) == a + DropLast(b);
      ConfirmedOnlyConcat(a, DropLast(b));
      if |b| == 1 {
        assert ConfirmedOnly(b) == if b[0].status.Confirmed? then [] + [b[0]] else [];
      }
    }
  }

  lemma {:induction false} ConfirmedOnlyMembers(us: seq<Utxo>)
    ensures forall u :: u in ConfirmedOnly(us) <==> u in us && u.status.Confirmed?
  {
    forall u ensures u in ConfirmedOnly(us) <==> u in us && u.status.Confirmed? {
      ConfirmedOnlyMember(us, u);
    }
  }

  predicate AllConfirmed(us: seq<Utxo>) {
    us == [] || (AllConfirmed(DropLast(us)) && Last(us).status.Confirmed?)
  }

  lemma {:induction false} ConfirmedOnlyIdentity(us: seq<Utxo>)
    requires AllConfirmed(us)
    ensures ConfirmedOnly(us) == us
  {
    if us == [] {
    } else {
      ConfirmedOnlyIdentity(DropLast(us));
      assert us == DropLast(us) + [Last(us)];
    }
  }

  lemma {:induction false} NoDupAppend(us: seq<Utxo>, u: Utxo)
    ensures NoDup(Ops(us + [u])) <==> NoDup(Ops(us)) && forall v :: v in us ==> v.op != u.op
  {
    var s := Ops(us + [u]);
    assert s == Ops(us) + [u.op];
    if NoDup(s) {
      assert forall i :: 0 <= i < |us| ==> Ops(us)[i] == s[i];
      forall v | v in us ensures v.op != u.op {
        var i :| 0 <= i < |us| && us[i] == v;
        assert s[i] != s[|us|];
      }
    }
    if NoDup(Ops(us)) && forall v :: v in us ==> v.op != u.op {
      forall i, j | 0 <= i < j < |s| ensures s[i] != s[j] {
        if j == |us| {
          assert us[i] in us;
        } else {
          assert s[i] == Ops(us)[i] && s[j] == Ops(us)[j];
        }
      }
    }
  }

  lemma {:induction false} ConfirmedOnlyNoDup(us: seq<Utxo>)
    requires NoDup(Ops(us))
    ensures NoDup(Ops(ConfirmedOnly(us)))
  {
    if us == [] {
    } else {
      assert us == DropLast(us) + [Last(us)];
      NoDupAppend(DropLast(us), Last(us));
      ConfirmedOnlyNoDup(DropLast(us));
      ConfirmedOnlyMembers(DropLast(us));
      NoDupAppend(ConfirmedOnly(DropLast(us)), Last(us));
    }
  }

  /** Without a repeated outpoint, the signer's table holds every output's own amount. */
  lemma {:induction false} AmountsTrue(us: seq<Utxo>, i: nat)
    requires NoDup(Ops(us)) && i < |us|
    ensures us[i].op in Amounts(us) && Amounts(us)[us[i].op] == us[i].amount
  {
    var d := DropLast(us);
    assert us == d + [Last(us)];
    assert forall j :: 0 <= j < |d| ==> Ops(d)[j] == Ops(us)[j];
    assert us[i].op == Ops(us)[i];
    if i == |d| {
    } else {
      AmountsTrue(d, i);
      assert Ops(us)[i] != Ops(us)[|d|];
    }
  }

  lemma {:induction false} SumPrevsOfUtxos(m: map<OutPoint, int>, ins: seq<TxIn>, us: seq<Utxo>)
    requires Prevs(ins) == Ops(us)
    requires forall i :: 0 <= i < |us| ==> us[i].op in m && m[us[i].op] == us[i].amount
    ensures SumPrevs(m, ins) == SumUtxos(us)
  {
    assert |ins| == |Prevs(ins)| == |us|;
    if ins == [] {
    } else {
      forall i | 0 <= i < |ins| ensures ins[i].prev == us[i].op {
        assert Prevs(ins)[i] == Ops(us)[i];
      }
      assert Prevs(DropLast(ins)) == Ops(DropLast(us));
      SumPrevsOfUtxos(m, DropLast(ins), DropLast(us));
    }
  }

  lemma {:induction false} OutsNotNegative(outs: seq<TxOut>)
    requires forall o :: o in outs ==> o.amount >= 0
    ensures SumOuts(outs) >= 0
  {
    if outs == [] {
    } else {
      OutsNotNegative(DropLast(outs));
    }
  }

  lemma {:induction false} TimesPositive(n: int, v: Pos)
    requires n >= 0
    ensures n * v >= n
  {
    assert n * v == n + n * (v - 1);
  }
}
