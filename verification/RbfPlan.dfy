/** Specification of one wallet call that builds or replaces the batch transaction.

    `Rbf` is the value of the wallet's replacement options; the functions below say what the
    options are after a list of gathered actions, without following the wallet's loops. */
module RbfPlan {
  import opened Bitcoin
  import opened Ledgers

  datatype Error =
    | WrongNetwork | IndexerDown | InputsMissingOrSpent | UnknownAction | EstimatorDown
    | BuildFailed | MissingSequence | MissingScript | MissingSecret | SubmitFailed
    | SwapNotInitiated | SwapNotExpired

  datatype Result<+T> = Ok(value: T) | Err(error: Error)

  datatype SigType = DefaultSig | RedeemSig | RefundSig | P2wpkhSig

  /** Wallet options and the external size estimates. */
  datatype Params = Params(
    network: string,
    key: Bytes,
    minRelayFee: nat,
    rbfSequence: int,                              // sequence the builder gives every input
    keyWeight: nat,                                // witness size of a wallet input
    refundSize: nat,                               // witness size of a refund input
    redeemSize: nat -> nat,                        // witness size of a redeem input, by secret length
    vsize: (nat, seq<TxOut>, int) -> Pos)          // virtual size: inputs, outputs, witness size
  {
    function Home(): Address { P2wpkh(key) }
  }

  datatype Rbf = Rbf(
    vin: seq<Utxo>, baseSize: int, segwit: int,    // PrevRawInputs
    recipients: seq<TxOut>,
    feeRate: int, fee: int,
    sigType: map<OutPoint, SigType>,
    sigScript: map<OutPoint, Script>,
    sigSecret: map<OutPoint, Bytes>,
    sigSequence: map<OutPoint, int>,
    firstInputs: seq<Utxo>,
    firstUtxos: seq<Utxo>)
  {
    predicate IsNil() { fee == 0 && firstInputs == [] }
  }

  const EMPTY_RBF := Rbf([], 0, 0, [], 0, 0, map[], map[], map[], map[], [], [])

  type Views = map<Address, seq<Utxo>>             // what the indexer answers; absent means an error

  /** The node: the ledger it knows, its policy for what it relays, and the submissions whose answer
      does not come back in time. */
  datatype Node = Node(ledger: Ledger, accepts: Tx -> bool, loses: Tx -> bool)

  /** An action together with the confirmed outputs collected for it. */
  datatype Gathered = Gathered(item: ActionItem, utxos: seq<Utxo>)

  // ------------------------------------------------ the plan of a list of gathered actions

  function Uint32(n: int): int { n % 0x1_0000_0000 }

  function Pays(x: Gathered): seq<TxOut> {
    if x.item.action == Initiate then [TxOut(x.item.swap.LockAddress(), x.item.swap.amount)] else []
  }

  function Recipients(g: seq<Gathered>): seq<TxOut> {
    if g == [] then [] else Recipients(DropLast(g)) + Pays(Last(g))
  }

  function RawInputs(g: seq<Gathered>): seq<Utxo> {
    if g == [] then [] else RawInputs(DropLast(g)) + Last(g).utxos
  }

  function InputSize(p: Params, x: Gathered): nat {
    if x.item.action == Redeem then p.redeemSize(|x.item.secret|) else p.refundSize
  }

  function WitnessSize(p: Params, g: seq<Gathered>): nat {
    if g == [] then 0 else WitnessSize(p, DropLast(g)) + |Last(g).utxos| * InputSize(p, Last(g))
  }

  /** Every listed outpoint is mapped to the one value. */
  function Mark<V>(us: seq<Utxo>, v: V): map<OutPoint, V> {
    if us == [] then map[] else Mark(DropLast(us), v)[Last(us).op := v]
  }

  function TypesOf(x: Gathered): map<OutPoint, SigType> {
    Mark(x.utxos, if x.item.action == Redeem then RedeemSig else RefundSig)
  }

  function SecretsOf(x: Gathered): map<OutPoint, Bytes> {
    if x.item.action == Redeem then Mark(x.utxos, x.item.secret) else map[]
  }

  function SequencesOf(x: Gathered): map<OutPoint, int> {
    if x.item.action == Redeem then map[] else Mark(x.utxos, Uint32(x.item.swap.waitBlock))
  }

  function Types(g: seq<Gathered>): map<OutPoint, SigType> {
    if g == [] then map[] else Types(DropLast(g)) + TypesOf(Last(g))
  }

  function Scripts(g: seq<Gathered>): map<OutPoint, Script> {
    if g == [] then map[] else Scripts(DropLast(g)) + Mark(Last(g).utxos, Last(g).item.swap.LockScript())
  }

  function Secrets(g: seq<Gathered>): map<OutPoint, Bytes> {
    if g == [] then map[] else Secrets(DropLast(g)) + SecretsOf(Last(g))
  }

  function Sequences(g: seq<Gathered>): map<OutPoint, int> {
    if g == [] then map[] else Sequences(DropLast(g)) + SequencesOf(Last(g))
  }

  /** The options with the plan of `g` added. */
  function Extend(p: Params, r: Rbf, g: seq<Gathered>): Rbf {
    r.(vin := r.vin + RawInputs(g),
       segwit := r.segwit + WitnessSize(p, g),
       recipients := r.recipients + Recipients(g),
       sigType := r.sigType + Types(g),
       sigScript := r.sigScript + Scripts(g),
       sigSecret := r.sigSecret + Secrets(g),
       sigSequence := r.sigSequence + Sequences(g))
  }

  /** The options with one gathered action added. */
  function AddItem(p: Params, r: Rbf, x: Gathered): Rbf {
    r.(vin := r.vin + x.utxos,
       segwit := r.segwit + |x.utxos| * InputSize(p, x),
       recipients := r.recipients + Pays(x),
       sigType := r.sigType + TypesOf(x),
       sigScript := r.sigScript + Mark(x.utxos, x.item.swap.LockScript()),
       sigSecret := r.sigSecret + SecretsOf(x),
       sigSequence := r.sigSequence + SequencesOf(x))
  }

  // ------------------------------------------------ gathering

  function GatherOne(p: Params, views: Views, a: ActionItem): Result<Gathered> {
    if a.swap.network != p.network then Err(WrongNetwork)
    else match a.action
      case Initiate => Ok(Gathered(a, []))
      case OtherAction(_) => Err(UnknownAction)
      case _ =>
        if a.swap.LockAddress() !in views then Err(IndexerDown)
        else
          var us := ConfirmedOnly(views[a.swap.LockAddress()]);
          if us == [] then Err(InputsMissingOrSpent) else Ok(Gathered(a, us))
  }

  /** The first action that cannot be gathered decides the error. */
  function Gather(p: Params, views: Views, actions: seq<ActionItem>): Result<seq<Gathered>> {
    if actions == [] then Ok([])
    else match Gather(p, views, DropLast(actions))
      case Err(e) => Err(e)
      case Ok(g) =>
        match GatherOne(p, views, Last(actions))
        case Err(e) => Err(e)
        case Ok(x) => Ok(g + [x])
  }

  /** Wallet outputs offered to the builder: fresh ones for a first transaction, the frozen
      list for a replacement. */
  function Pool(p: Params, views: Views, r: Rbf): Result<seq<Utxo>> {
    if !r.IsNil() then Ok(r.firstUtxos)
    else if p.Home() !in views then Err(IndexerDown)
    else Ok(ConfirmedOnly(views[p.Home()]))
  }

  // ------------------------------------------------ building, signing, recording

  /** The size estimate of the fee loop: raw inputs by their signing type, the rest as wallet inputs. */
  function VSize(p: Params, d: Rbf, tx: Tx): Pos {
    p.vsize(|tx.ins|, tx.outs, d.segwit + p.keyWeight * (|tx.ins| - |d.vin|))
  }

  /** The fee of a size at a rate. Written as a sum: proofs about whole calls then need no
      multiplication of unknowns, and `FeeForIs` gives the product where it is wanted. */
  function FeeFor(rate: int, size: nat): int {
    if size == 0 then 0 else FeeFor(rate, size - 1) + rate
  }

  lemma {:induction false} FeeForIs(rate: int, size: nat)
    ensures FeeFor(rate, size) == rate * size
  {
    if size == 0 {
    } else {
      FeeForIs(rate, size - 1);
      assert rate * size == rate * (size - 1) + rate;
    }
  }

  /** What the wallet relies on when the external builder answers with a transaction. */
  ghost predicate Builds(p: Params, rate: int, d: Rbf, pool: seq<Utxo>, tx: Tx) {
    && |d.vin| <= |tx.ins| <= |d.vin| + |pool|
    && Prevs(tx.ins) == Ops(d.vin + pool[..|tx.ins| - |d.vin|])
    && |d.recipients| <= |tx.outs| <= |d.recipients| + 1
    && tx.outs[..|d.recipients|] == d.recipients
    && (|tx.outs| == |d.recipients| + 1 ==> Last(tx.outs).to == p.Home())
    && (forall o :: o in tx.outs ==> o.amount >= 0)
    && SumUtxos(d.vin + pool[..|tx.ins| - |d.vin|]) - SumOuts(tx.outs) >= FeeFor(rate, VSize(p, d, tx))
  }

  /** Some number of wallet outputs pays the recipients and the fee at this rate, without change. */
  predicate CanBuild(p: Params, rate: int, d: Rbf, pool: seq<Utxo>) {
    && (forall o :: o in d.recipients ==> o.amount >= 0)
    && exists k :: 0 <= k <= |pool| && PaysWith(p, rate, d, pool, k)
  }

  predicate PaysWith(p: Params, rate: int, d: Rbf, pool: seq<Utxo>, k: nat)
    requires k <= |pool|
  {
    SumUtxos(d.vin + pool[..k]) - SumOuts(d.recipients)
      >= FeeFor(rate, p.vsize(|d.vin| + k, d.recipients, d.segwit + p.keyWeight * k))
  }

  function TypeOf(d: Rbf, op: OutPoint): SigType {
    if op in d.sigType then d.sigType[op] else DefaultSig
  }

  /** The maps hold all that signing the outpoint needs. */
  predicate HasPlan(d: Rbf, op: OutPoint) {
    && (TypeOf(d, op) == RedeemSig ==> op in d.sigScript && op in d.sigSecret)
    && (TypeOf(d, op) == RefundSig ==> op in d.sigScript && op in d.sigSequence)
  }

  function SignedInput(p: Params, d: Rbf, amounts: map<OutPoint, int>, op: OutPoint): TxIn
    requires HasPlan(d, op)
  {
    match TypeOf(d, op)
    case RedeemSig => TxIn(op, p.rbfSequence, RedeemWitness(d.sigScript[op], d.sigSecret[op], AmountOf(amounts, op)))
    case RefundSig => TxIn(op, d.sigSequence[op], RefundWitness(d.sigScript[op], AmountOf(amounts, op)))
    case _ => TxIn(op, p.rbfSequence, KeyWitness(AmountOf(amounts, op)))
  }

  ghost predicate SignedBy(p: Params, d: Rbf, amounts: map<OutPoint, int>, tx: Tx) {
    forall i :: 0 <= i < |tx.ins| ==>
      HasPlan(d, tx.ins[i].prev) && tx.ins[i] == SignedInput(p, d, amounts, tx.ins[i].prev)
  }

  /** Transaction inputs as the wallet records them: value from the signer's table, no status. */
  function InputsOf(amounts: map<OutPoint, int>, tx: Tx): seq<Utxo> {
    seq(|tx.ins|, i requires 0 <= i < |tx.ins| =>
      Utxo(tx.ins[i].prev, AmountOf(amounts, tx.ins[i].prev), NoStatus))
  }

  /** The options stored after `tx` went out at `rate`; `first` is true for a new chain. */
  function Record(p: Params, first: bool, d: Rbf, amounts: map<OutPoint, int>, pool: seq<Utxo>, tx: Tx, rate: int): Rbf
    requires |d.vin| == 0 ==> |tx.ins| <= |pool|
  {
    var r := d.(feeRate := rate, fee := TotalFee(amounts, tx));
    var r := if first then r.(firstInputs := InputsOf(amounts, tx), firstUtxos := pool) else r;
    if |d.vin| == 0 then
      r.(vin := InputsOf(amounts, tx), firstUtxos := pool[|tx.ins|..], segwit := |tx.ins| * p.keyWeight)
    else r
  }

  /** The lowest rate the wallet tries. */
  function StartRate(p: Params, r: Rbf, est: int): int {
    if !r.IsNil() && est < r.feeRate + p.minRelayFee then r.feeRate + p.minRelayFee else est
  }

  function SignerTable(r: Rbf, g: seq<Gathered>, pool: seq<Utxo>): map<OutPoint, int> {
    Amounts(r.vin + RawInputs(g) + pool)
  }

  /** A candidate at this rate pays too little to replace a transaction with that fee. */
  ghost predicate FallsShort(p: Params, rate: int, d: Rbf, pool: seq<Utxo>, amounts: map<OutPoint, int>, prevFee: int) {
    exists tx :: Builds(p, rate, d, pool, tx)
        && TotalFee(amounts, tx) < prevFee + FeeFor(p.minRelayFee, VSize(p, d, tx))
  }

  /** The call gets to this rate: at every lower one it tries, some candidate was not enough. */
  ghost predicate Tried(p: Params, r: Rbf, g: seq<Gathered>, pool: seq<Utxo>, est: int, rate: int) {
    && StartRate(p, r, est) <= rate
    && (r.IsNil() ==> rate == est)
    && forall q :: StartRate(p, r, est) <= q < rate ==>
         FallsShort(p, q, Extend(p, r, g), pool, SignerTable(r, g, pool), r.fee)
  }

  /** `tx` is a transaction the wallet may submit for options `r` and gathered actions `g`. */
  ghost predicate Built(p: Params, r: Rbf, g: seq<Gathered>, pool: seq<Utxo>, est: int, tx: Tx, rate: int) {
    var d := Extend(p, r, g);
    var amounts := SignerTable(r, g, pool);
    && StartRate(p, r, est) <= rate
    && Builds(p, rate, d, pool, tx)
    && SignedBy(p, d, amounts, tx)
    && (r.IsNil() ==> rate == est)
    && (!r.IsNil() ==> TotalFee(amounts, tx) >= r.fee + FeeFor(p.minRelayFee, VSize(p, d, tx)))
  }

  /** A successful call: `tx` was built and submitted, and `next` are the options returned. */
  ghost predicate Accepted(p: Params, r: Rbf, g: seq<Gathered>, pool: seq<Utxo>, est: int, tx: Tx, rate: int,
                           next: Rbf) {
    && Built(p, r, g, pool, est, tx, rate)
    && next == Record(p, r.IsNil(), Extend(p, r, g), SignerTable(r, g, pool), pool, tx, rate)
  }

  // ------------------------------------------------ what a call may answer

  /** A replacement without any raw input keeps the list of wallet outputs it was given. */
  predicate KeepsPool(r: Rbf, g: seq<Gathered>) {
    !r.IsNil() && r.vin + RawInputs(g) == []
  }

  /** The signer's table holds the value of every output the builder may use. */
  predicate FeesAgree(d: Rbf, pool: seq<Utxo>, amounts: map<OutPoint, int>) {
    && (forall u :: u in d.vin ==> u.op in amounts && amounts[u.op] == u.amount)
    && (forall u :: u in pool ==> u.op in amounts && amounts[u.op] == u.amount)
  }

  function Max(a: int, b: int): int { if a < b then b else a }

  /** An upper bound on what a list of outputs can pay. */
  function Wealth(us: seq<Utxo>): nat {
    if us == [] then 0 else Wealth(DropLast(us)) + Max(0, Last(us).amount)
  }

  /** At a rate the call gets to, the outputs do not pay for a transaction. */
  ghost predicate TooExpensive(p: Params, r: Rbf, g: seq<Gathered>, pool: seq<Utxo>, est: int) {
    exists rate :: Tried(p, r, g, pool, est, rate) && !CanBuild(p, rate, Extend(p, r, g), pool)
  }

  /** A candidate that was ready and spendable, but against the node's policy. */
  ghost predicate AgainstPolicy(p: Params, node: Node, r: Rbf, g: seq<Gathered>, pool: seq<Utxo>, est: int) {
    exists tx, rate :: Built(p, r, g, pool, est, tx, rate) && Spendable(node.ledger, tx) && !node.accepts(tx)
  }

  /** A candidate that was built but whose inputs the node does not accept. */
  ghost predicate RefusedByNode(p: Params, l: Ledger, r: Rbf, g: seq<Gathered>, pool: seq<Utxo>, est: int) {
    exists tx, rate :: Built(p, r, g, pool, est, tx, rate) && !Spendable(l, tx)
  }

  /** A candidate replacement that spends none of the first transaction's inputs. */
  ghost predicate LostFirstInputs(p: Params, r: Rbf, g: seq<Gathered>, pool: seq<Utxo>) {
    exists tx, rate :: Builds(p, rate, Extend(p, r, g), pool, tx) && KeepsNoFirstInput(r, tx)
  }

  ghost predicate KeepsNoFirstInput(r: Rbf, tx: Tx) {
    forall i :: 0 <= i < |r.firstInputs| ==> !Spends(tx, r.firstInputs[i].op)
  }

  /** A candidate with an input the maps cannot sign. */
  ghost predicate CannotSign(p: Params, r: Rbf, g: seq<Gathered>, pool: seq<Utxo>) {
    exists tx, rate :: Builds(p, rate, Extend(p, r, g), pool, tx) && HasUnplanned(Extend(p, r, g), tx)
  }

  ghost predicate HasUnplanned(d: Rbf, tx: Tx) {
    exists i :: 0 <= i < |tx.ins| && !HasPlan(d, tx.ins[i].prev)
  }

  /** What a call may answer once the actions are gathered and the wallet outputs known; `sent` is
      what the node took. It may take a transaction although the call reports an error. */
  ghost predicate Answer(p: Params, before: Node, after: Ledger, r: Rbf, g: seq<Gathered>, pool: seq<Utxo>,
                         est: int, sent: Option<Tx>, rate: int, next: Rbf, err: Option<Error>)
  {
    && Tried(p, r, g, pool, est, rate)
    && if sent.Some? then
      && Built(p, r, g, pool, est, sent.value, rate)
      && Spendable(before.ledger, sent.value) && before.accepts(sent.value)
      && after == before.ledger.Broadcast(sent.value)
      && (err.None? <==> !before.loses(sent.value))
      && (err.Some? ==> err.value == SubmitFailed)
      && (err.None? ==> Accepted(p, r, g, pool, est, sent.value, rate, next))
    else
      && err.Some? && after == before.ledger
      && (|| Unbuilt(p, r, g, pool, est, err.value)
          || (err.value == InputsMissingOrSpent && RefusedByNode(p, before.ledger, r, g, pool, est))
          || (err.value == SubmitFailed && AgainstPolicy(p, before, r, g, pool, est)))
  }

  /** Why no transaction was ready to submit. */
  ghost predicate Unbuilt(p: Params, r: Rbf, g: seq<Gathered>, pool: seq<Utxo>, est: int, e: Error) {
    || (e == BuildFailed && TooExpensive(p, r, g, pool, est))
    || (e == InputsMissingOrSpent && !r.IsNil() && LostFirstInputs(p, r, g, pool))
    || (e in {MissingSequence, MissingScript, MissingSecret} && CannotSign(p, r, g, pool))
  }

  /** The wallet outputs and gathered actions a call works with, or the error that stops it. */
  function Inputs(p: Params, views: Views, actions: seq<ActionItem>, r: Rbf, est: Option<Pos>)
    : (found: Result<(seq<Gathered>, seq<Utxo>)>)
    ensures found.Ok? ==> est.Some?
  {
    match Gather(p, views, actions)
    case Err(e) => Err(e)
    case Ok(g) =>
      if est == None then Err(EstimatorDown)
      else
        match Pool(p, views, r)
        case Err(e) => Err(e)
        case Ok(pool) => Ok((g, pool))
  }

  /** If the call gets as far as choosing a rate, it gets to this one and no further. */
  ghost predicate GetsTo(p: Params, views: Views, actions: seq<ActionItem>, r: Rbf, est: Option<Pos>, rate: int) {
    match Inputs(p, views, actions, r, est)
    case Err(_) => true
    case Ok((g, pool)) => Tried(p, r, g, pool, est.value, rate)
  }

  // ------------------------------------------------ why a call stops before it builds

  /** The action cannot be gathered, for this reason. */
  predicate CannotGather(p: Params, views: Views, a: ActionItem, e: Error) {
    match e
    case WrongNetwork => a.swap.network != p.network
    case UnknownAction => a.swap.network == p.network && a.action.OtherAction?
    case IndexerDown =>
      && a.swap.network == p.network && a.action in {Redeem, Refund}
      && a.swap.LockAddress() !in views
    case InputsMissingOrSpent =>
      && a.swap.network == p.network && a.action in {Redeem, Refund}
      && a.swap.LockAddress() in views
      && forall u :: u in views[a.swap.LockAddress()] ==> !u.status.Confirmed?
    case _ => false
  }

  /** The i-th action is the first that cannot be gathered. */
  ghost predicate FailsFirst(p: Params, views: Views, actions: seq<ActionItem>, i: int, e: Error) {
    && 0 <= i < |actions| && CannotGather(p, views, actions[i], e)
    && forall j, e' :: 0 <= j < i ==> !CannotGather(p, views, actions[j], e')
  }

  ghost predicate AllGather(p: Params, views: Views, actions: seq<ActionItem>) {
    forall i, e :: 0 <= i < |actions| ==> !CannotGather(p, views, actions[i], e)
  }

  /** The call ends with this error before it builds anything: at the first action that cannot be
      gathered, without an answer of the estimator, or without one about the wallet's own outputs. */
  ghost predicate StopsWith(p: Params, views: Views, actions: seq<ActionItem>, r: Rbf, est: Option<Pos>, e: Error) {
    || (exists i :: FailsFirst(p, views, actions, i, e))
    || (AllGather(p, views, actions) && est == None && e == EstimatorDown)
    || (AllGather(p, views, actions) && est.Some? && r.fee == 0 && r.firstInputs == [] && p.Home() !in views
        && e == IndexerDown)
  }

  /** What the gathered outputs are: none for an initiate, otherwise all confirmed ones listed. */
  ghost predicate GatheredFrom(views: Views, a: ActionItem, x: Gathered) {
    && x.item == a
    && (a.action == Initiate ==> x.utxos == [])
    && (a.action != Initiate ==>
          a.swap.LockAddress() in views && x.utxos == ConfirmedOnly(views[a.swap.LockAddress()]) && x.utxos != [])
  }

  lemma {:induction false} GatherOneExactly(p: Params, views: Views, a: ActionItem)
    ensures forall e :: GatherOne(p, views, a) == Err(e) <==> CannotGather(p, views, a, e)
    ensures GatherOne(p, views, a).Ok? ==> GatheredFrom(views, a, GatherOne(p, views, a).value)
  {
    if a.swap.LockAddress() in views {
      var us := views[a.swap.LockAddress()];
      var c := ConfirmedOnly(us);
      if c == [] {
        forall u | u in us ensures !u.status.Confirmed? {
          ConfirmedOnlyMember(us, u);
        }
      } else {
        ConfirmedOnlyMember(us, c[0]);
      }
    }
  }

  /** The first failure of a list is that of all but its last action, or its last action when the others
      can be gathered. */
  lemma {:induction false} FailureSplits(p: Params, views: Views, actions: seq<ActionItem>, e: Error)
    requires actions != []
    ensures
      var d, last := DropLast(actions), Last(actions);
      (exists i :: FailsFirst(p, views, actions, i, e))
      <==> (exists i :: FailsFirst(p, views, d, i, e)) || (AllGather(p, views, d) && CannotGather(p, views, last, e))
    ensures AllGather(p, views, actions) <==>
              AllGather(p, views, DropLast(actions)) && forall e' :: !CannotGather(p, views, Last(actions), e')
  {
    hide CannotGather;
    var d, n := DropLast(actions), |actions| - 1;
    assert forall j :: 0 <= j < n ==> d[j] == actions[j];
    if i :| FailsFirst(p, views, actions, i, e) {
      assert i < n ==> FailsFirst(p, views, d, i, e);
    }
    if i :| FailsFirst(p, views, d, i, e) {
      assert FailsFirst(p, views, actions, i, e);
    }
    if AllGather(p, views, d) && CannotGather(p, views, Last(actions), e) {
      assert FailsFirst(p, views, actions, n, e);
    }
  }

  /** The error of a list is that of the first action that fails; a list none of whose actions fails is
      gathered in order. */
  lemma {:induction false} GatherExactly(p: Params, views: Views, actions: seq<ActionItem>)
    ensures forall e :: Gather(p, views, actions) == Err(e) <==> exists i :: FailsFirst(p, views, actions, i, e)
    ensures Gather(p, views, actions).Ok? <==> AllGather(p, views, actions)
    ensures Gather(p, views, actions).Ok? ==>
              var g := Gather(p, views, actions).value;
              |g| == |actions| && forall i :: 0 <= i < |g| ==> GatheredFrom(views, actions[i], g[i])
  {
    if actions == [] {
    } else {
      hide GatherOne, CannotGather, GatheredFrom, FailsFirst, AllGather;
      GatherExactly(p, views, DropLast(actions));
      GatherOneExactly(p, views, Last(actions));
      forall e ensures Gather(p, views, actions) == Err(e) <==> exists i :: FailsFirst(p, views, actions, i, e) {
        FailureSplits(p, views, actions, e);
      }
      FailureSplits(p, views, actions, WrongNetwork);
    }
  }

  /** So the inputs of a call are known exactly when nothing stops it. */
  lemma {:induction false} InputsExactly(p: Params, views: Views, actions: seq<ActionItem>, r: Rbf, est: Option<Pos>)
    ensures forall e :: Inputs(p, views, actions, r, est) == Err(e) <==> StopsWith(p, views, actions, r, est, e)
    ensures Inputs(p, views, actions, r, est).Ok? ==>
              var (g, pool) := Inputs(p, views, actions, r, est).value;
              && |g| == |actions| && (forall i :: 0 <= i < |g| ==> GatheredFrom(views, actions[i], g[i]))
              && if r.fee == 0 && r.firstInputs == [] then
                   p.Home() in views && pool == ConfirmedOnly(views[p.Home()])
                 else pool == r.firstUtxos
  {
    hide Gather, GatheredFrom, CannotGather;
    GatherExactly(p, views, actions);
    if Gather(p, views, actions).Ok? {
      forall i, e ensures !FailsFirst(p, views, actions, i, e) {
      }
    }
  }

  /** The first rate is never below the estimate, and for a replacement never below the previous rate
      plus the relay fee. */
  lemma {:induction false} StartRateIs(p: Params, r: Rbf, est: int)
    ensures StartRate(p, r, est)
         == if r.fee == 0 && r.firstInputs == [] then est else Max(est, r.feeRate + p.minRelayFee)
  {
  }

  // ------------------------------------------------ lemmas about the fee

  /** Under the builder's contract the fee the signer computes is at least rate times size. */
  lemma {:induction false} FeeAtLeast(p: Params, rate: Pos, d: Rbf, pool: seq<Utxo>, amounts: map<OutPoint, int>,
                                      tx: Tx)
    requires Builds(p, rate, d, pool, tx) && FeesAgree(d, pool, amounts)
    ensures TotalFee(amounts, tx) >= rate * VSize(p, d, tx)
  {
    var used := d.vin + pool[..|tx.ins| - |d.vin|];
    forall i | 0 <= i < |used| ensures used[i].op in amounts && amounts[used[i].op] == used[i].amount {
      if i < |d.vin| {
        assert used[i] in d.vin;
      } else {
        assert used[i] == pool[i - |d.vin|];
      }
    }
    SumPrevsOfUtxos(amounts, tx.ins, used);
    FeeForIs(rate, VSize(p, d, tx));
  }

  /** A rate of previous fee plus relay fee always satisfies the loop's exit test. */
  lemma {:induction false} EnoughRate(p: Params, rate: Pos, d: Rbf, pool: seq<Utxo>, amounts: map<OutPoint, int>,
                                      tx: Tx, prevFee: nat)
    requires Builds(p, rate, d, pool, tx) && FeesAgree(d, pool, amounts)
    requires TotalFee(amounts, tx) < prevFee + VSize(p, d, tx) * p.minRelayFee
    ensures rate < prevFee + p.minRelayFee
  {
    FeeAtLeast(p, rate, d, pool, amounts, tx);
    var v := VSize(p, d, tx);
    var spare := rate - prevFee - p.minRelayFee;
    assert rate * v == spare * v + prevFee * v + p.minRelayFee * v;
    TimesPositive(prevFee, v);
    if spare >= 0 {
      TimesPositive(spare, v);
    }
  }

  /** A transaction that pays a fee has an input. */
  lemma {:induction false} BuiltHasInput(p: Params, rate: Pos, d: Rbf, pool: seq<Utxo>, tx: Tx)
    requires Builds(p, rate, d, pool, tx)
    ensures |tx.ins| > 0
  {
    if |tx.ins| == 0 {
      assert d.vin + pool[..0] == [];
      OutsNotNegative(tx.outs);
      FeeForIs(rate, VSize(p, d, tx));
      TimesPositive(rate, VSize(p, d, tx));
    }
  }

  // ------------------------------------------------ lemmas about the plan

  lemma {:induction false} MarkIs<V>(us: seq<Utxo>, v: V)
    ensures forall op :: op in Mark(us, v) <==> op in Ops(us)
    ensures forall op :: op in Mark(us, v) ==> Mark(us, v)[op] == v
  {
    if us == [] {
    } else {
      assert us == DropLast(us) + [Last(us)];
      assert Ops(us) == Ops(DropLast(us)) + [Last(us).op];
      MarkIs(DropLast(us), v);
    }
  }

  lemma {:induction false} MarkStep<V>(base: map<OutPoint, V>, us: seq<Utxo>, i: nat, v: V)
    requires i < |us|
    ensures base + Mark(us[..i + 1], v) == (base + Mark(us[..i], v))[us[i].op := v]
  {
    assert DropLast(us[..i + 1]) == us[..i];
  }

  lemma {:induction false} PlanOne(p: Params, g: seq<Gathered>, x: Gathered)
    ensures RawInputs(g + [x]) == RawInputs(g) + x.utxos
    ensures WitnessSize(p, g + [x]) == WitnessSize(p, g) + |x.utxos| * InputSize(p, x)
    ensures Recipients(g + [x]) == Recipients(g) + Pays(x)
    ensures Types(g + [x]) == Types(g) + TypesOf(x)
    ensures Scripts(g + [x]) == Scripts(g) + Mark(x.utxos, x.item.swap.LockScript())
    ensures Secrets(g + [x]) == Secrets(g) + SecretsOf(x)
    ensures Sequences(g + [x]) == Sequences(g) + SequencesOf(x)
  {
    var gx := g + [x];
    assert gx != [] && DropLast(gx) == g && Last(gx) == x;
  }

  lemma {:induction false} MapAssoc<K, V>(a: map<K, V>, b: map<K, V>, c: map<K, V>)
    ensures (a + b) + c == a + (b + c)
  {
  }

  lemma {:induction false} RecipientsConcat(g: seq<Gathered>, h: seq<Gathered>)
    ensures Recipients(g + h) == Recipients(g) + Recipients(h)
  {
    hide Pays;
    if h == [] {
      assert g + h == g;
    } else {
      assert DropLast(g + h) == g + DropLast(h);
      RecipientsConcat(g, DropLast(h));
    }
  }

  lemma {:induction false} RawInputsConcat(g: seq<Gathered>, h: seq<Gathered>)
    ensures RawInputs(g + h) == RawInputs(g) + RawInputs(h)
  {
    if h == [] {
      assert g + h == g;
    } else {
      assert DropLast(g + h) == g + DropLast(h) && Last(g + h) == Last(h);
      RawInputsConcat(g, DropLast(h));
      var a, b, c := RawInputs(g), RawInputs(DropLast(h)), Last(h).utxos;
      assert (a + b) + c == a + (b + c);
    }
  }

  lemma {:induction false} WitnessSizeConcat(p: Params, g: seq<Gathered>, h: seq<Gathered>)
    ensures WitnessSize(p, g + h) == WitnessSize(p, g) + WitnessSize(p, h)
  {
    if h == [] {
      assert g + h == g;
    } else {
      assert DropLast(g + h) == g + DropLast(h);
      WitnessSizeConcat(p, g, DropLast(h));
    }
  }

  lemma {:induction false} TypesConcat(g: seq<Gathered>, h: seq<Gathered>)
    ensures Types(g + h) == Types(g) + Types(h)
  {
    if h == [] {
      assert g + h == g;
    } else {
      assert DropLast(g + h) == g + DropLast(h);
      TypesConcat(g, DropLast(h));
      MapAssoc(Types(g), Types(DropLast(h)), TypesOf(Last(h)));
    }
  }

  lemma {:induction false} ScriptsConcat(g: seq<Gathered>, h: seq<Gathered>)
    ensures Scripts(g + h) == Scripts(g) + Scripts(h)
  {
    if h == [] {
      assert g + h == g;
    } else {
      assert DropLast(g + h) == g + DropLast(h);
      ScriptsConcat(g, DropLast(h));
      MapAssoc(Scripts(g), Scripts(DropLast(h)), Mark(Last(h).utxos, Last(h).item.swap.LockScript()));
    }
  }

  lemma {:induction false} SecretsConcat(g: seq<Gathered>, h: seq<Gathered>)
    ensures Secrets(g + h) == Secrets(g) + Secrets(h)
  {
    if h == [] {
      assert g + h == g;
    } else {
      assert DropLast(g + h) == g + DropLast(h);
      SecretsConcat(g, DropLast(h));
      MapAssoc(Secrets(g), Secrets(DropLast(h)), SecretsOf(Last(h)));
    }
  }

  lemma {:induction false} SequencesConcat(g: seq<Gathered>, h: seq<Gathered>)
    ensures Sequences(g + h) == Sequences(g) + Sequences(h)
  {
    if h == [] {
      assert g + h == g;
    } else {
      assert DropLast(g + h) == g + DropLast(h);
      SequencesConcat(g, DropLast(h));
      MapAssoc(Sequences(g), Sequences(DropLast(h)), SequencesOf(Last(h)));
    }
  }

  lemma {:induction false} ExtendOne(p: Params, r: Rbf, g: seq<Gathered>, x: Gathered)
    ensures Extend(p, r, g + [x]) == AddItem(p, Extend(p, r, g), x)
  {
    hide RawInputs, WitnessSize, Recipients, Types, Scripts, Secrets, Sequences;
    var a, b := Extend(p, r, g + [x]), AddItem(p, Extend(p, r, g), x);
    assert a.vin == b.vin && a.segwit == b.segwit && a.recipients == b.recipients by { PlanOne(p, g, x); }
    assert a.sigType == b.sigType by { PlanOne(p, g, x); MapAssoc(r.sigType, Types(g), TypesOf(x)); }
    assert a.sigScript == b.sigScript by {
      PlanOne(p, g, x);
      MapAssoc(r.sigScript, Scripts(g), Mark(x.utxos, x.item.swap.LockScript()));
    }
    assert a.sigSecret == b.sigSecret by { PlanOne(p, g, x); MapAssoc(r.sigSecret, Secrets(g), SecretsOf(x)); }
    assert a.sigSequence == b.sigSequence by {
      PlanOne(p, g, x);
      MapAssoc(r.sigSequence, Sequences(g), SequencesOf(x));
    }
  }

  /** Planning two lists one after the other is planning their concatenation. */
  lemma {:induction false} ExtendConcat(p: Params, r: Rbf, g: seq<Gathered>, h: seq<Gathered>)
    ensures Extend(p, Extend(p, r, g), h) == Extend(p, r, g + h)
  {
    hide RawInputs, WitnessSize, Recipients, Types, Scripts, Secrets, Sequences;
    var a, b := Extend(p, Extend(p, r, g), h), Extend(p, r, g + h);
    assert a.vin == b.vin by { RawInputsConcat(g, h); }
    assert a.segwit == b.segwit by { WitnessSizeConcat(p, g, h); }
    assert a.recipients == b.recipients by { RecipientsConcat(g, h); }
    assert a.sigType == b.sigType by { TypesConcat(g, h); MapAssoc(r.sigType, Types(g), Types(h)); }
    assert a.sigScript == b.sigScript by { ScriptsConcat(g, h); MapAssoc(r.sigScript, Scripts(g), Scripts(h)); }
    assert a.sigSecret == b.sigSecret by { SecretsConcat(g, h); MapAssoc(r.sigSecret, Secrets(g), Secrets(h)); }
    assert a.sigSequence == b.sigSequence by {
      SequencesConcat(g, h);
      MapAssoc(r.sigSequence, Sequences(g), Sequences(h));
    }
  }

  /** An action that cannot be gathered stops the whole list with its error. */
  lemma {:induction false} GatherPrefixError(p: Params, views: Views, actions: seq<ActionItem>, i: nat)
    requires i <= |actions| && Gather(p, views, actions[..i]).Err?
    ensures Gather(p, views, actions) == Gather(p, views, actions[..i])
    decreases |actions| - i
  {
    if i < |actions| {
      assert DropLast(actions[..i + 1]) == actions[..i];
      GatherPrefixError(p, views, actions, i + 1);
    } else {
      assert actions[..i] == actions;
    }
  }
}
