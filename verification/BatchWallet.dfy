/** The one-shot batch: the same plan as `ExecuteRbf`, with inputs remembered by position. */
module BatchWallet {
  import opened Bitcoin
  import opened Ledgers
  import opened RbfPlan
  import opened RbfChain
  import opened SignPlan
  import opened Wallets
  import opened Protocol
  import opened Safety
  import opened SafetySteps
  import Records

  const HALF_WORD := 0x8000_0000_0000_0000

  function Uint64(n: int): nat { n % 0x1_0000_0000_0000_0000 }

  /** Some confirmed output has at least as many confirmations as the timelock. */
  predicate HasExpired(us: seq<Utxo>, tip: nat, waitBlock: int) {
    exists i :: 0 <= i < |us| && IsOld(us[i], tip, waitBlock)
  }

  predicate IsOld(u: Utxo, tip: nat, waitBlock: int) {
    u.status.Confirmed? && Uint64(tip - u.status.height) >= Uint64(waitBlock)
  }

  /** For a height and a timelock that can occur, expiry is a comparison of plain numbers; an output above
      the tip always counts as old, because the difference wraps around. */
  lemma {:induction false} ExpiredExactly(us: seq<Utxo>, tip: nat, waitBlock: int)
    requires tip < HALF_WORD && 0 <= waitBlock < HALF_WORD
    requires forall u :: u in us && u.status.Confirmed? ==> u.status.height < HALF_WORD
    ensures HasExpired(us, tip, waitBlock)
       <==> exists u :: u in us && u.status.Confirmed? && (tip - u.status.height >= waitBlock || u.status.height > tip)
  {
    forall u | u in us && u.status.Confirmed?
      ensures IsOld(u, tip, waitBlock) <==> tip - u.status.height >= waitBlock || u.status.height > tip
    {
      var d := tip - u.status.height;
      assert Uint64(waitBlock) == waitBlock;
      assert Uint64(d) == if d >= 0 then d else d + 2 * HALF_WORD;
    }
    forall i | 0 <= i < |us| ensures us[i] in us {
    }
  }

  method Expired(client: Indexer, s: Swap, tip: Option<nat>) returns (r: Result<bool>)
    ensures r == if s.LockAddress() !in client.views || tip == None then Err(IndexerDown)
                 else Ok(HasExpired(client.views[s.LockAddress()], tip.value, s.waitBlock))
  {
    var answer := client.GetUTXOs(s.LockAddress());
    if answer.Err? {
      return Err(answer.error);
    }
    if tip.None? {
      return Err(IndexerDown);
    }
    var utxos := answer.value;
    for i := 0 to |utxos|
      invariant forall k :: 0 <= k < i ==> !IsOld(utxos[k], tip.value, s.waitBlock)
    {
      if utxos[i].status.Confirmed? {
        if Uint64(tip.value - utxos[i].status.height) >= Uint64(s.waitBlock) {
          assert IsOld(utxos[i], tip.value, s.waitBlock);
          return Ok(true);
        }
      }
    }
    return Ok(false);
  }

  // ------------------------------------------------ specification

  /** Like `GatherOne`, but unconfirmed outputs count and a refund must have expired. */
  function BatchOne(p: Params, views: Views, tip: Option<nat>, a: ActionItem): Result<Gathered> {
    if a.swap.network != p.network then Err(WrongNetwork)
    else match a.action
      case Initiate => Ok(Gathered(a, []))
      case OtherAction(_) => Err(UnknownAction)
      case Redeem =>
        if a.swap.LockAddress() !in views then Err(IndexerDown)
        else if views[a.swap.LockAddress()] == [] then Err(SwapNotInitiated)
        else Ok(Gathered(a, views[a.swap.LockAddress()]))
      case Refund =>
        if a.swap.LockAddress() !in views || tip == None then Err(IndexerDown)
        else if !HasExpired(views[a.swap.LockAddress()], tip.value, a.swap.waitBlock) then Err(SwapNotExpired)
        else Ok(Gathered(a, views[a.swap.LockAddress()]))
  }

  function BatchGather(p: Params, views: Views, tip: Option<nat>, actions: seq<ActionItem>): Result<seq<Gathered>> {
    if actions == [] then Ok([])
    else match BatchGather(p, views, tip, DropLast(actions))
      case Err(e) => Err(e)
      case Ok(g) =>
        match BatchOne(p, views, tip, Last(actions))
        case Err(e) => Err(e)
        case Ok(x) => Ok(g + [x])
  }

  /** Why the one-shot form cannot gather an action; unlike the replaceable form it needs some output,
      confirmed or not, and for a refund one that is old enough. */
  predicate CannotBatch(p: Params, views: Views, tip: Option<nat>, a: ActionItem, e: Error) {
    match e
    case WrongNetwork => a.swap.network != p.network
    case UnknownAction => a.swap.network == p.network && a.action.OtherAction?
    case IndexerDown =>
      && a.swap.network == p.network && a.action in {Redeem, Refund}
      && (a.swap.LockAddress() !in views || (a.action == Refund && tip == None))
    case SwapNotInitiated =>
      && a.swap.network == p.network && a.action == Redeem
      && a.swap.LockAddress() in views && views[a.swap.LockAddress()] == []
    case SwapNotExpired =>
      && a.swap.network == p.network && a.action == Refund
      && a.swap.LockAddress() in views && tip.Some?
      && forall u :: u in views[a.swap.LockAddress()] && u.status.Confirmed? ==> !IsOld(u, tip.value, a.swap.waitBlock)
    case _ => false
  }

  /** The error of one action, or its outputs: for a redeem or a refund all that are listed, also those
      that are not confirmed. */
  lemma {:induction false} BatchOneExactly(p: Params, views: Views, tip: Option<nat>, a: ActionItem)
    ensures forall e :: BatchOne(p, views, tip, a) == Err(e) <==> CannotBatch(p, views, tip, a, e)
    ensures BatchOne(p, views, tip, a).Ok? ==>
              var x := BatchOne(p, views, tip, a).value;
              && x.item == a
              && (a.action == Initiate ==> x.utxos == [])
              && (a.action != Initiate ==>
                    a.swap.LockAddress() in views && x.utxos == views[a.swap.LockAddress()] && x.utxos != [])
  {
    if a.swap.LockAddress() in views {
      var us := views[a.swap.LockAddress()];
      assert forall i :: 0 <= i < |us| ==> us[i] in us;
    }
  }

  /** The one-shot form fails with the error of the first action that fails, and otherwise gathers all
      actions in order. */
  lemma {:induction false} BatchGatherExactly(p: Params, views: Views, tip: Option<nat>, actions: seq<ActionItem>)
    ensures BatchGather(p, views, tip, actions).Ok? <==>
              forall i, e :: 0 <= i < |actions| ==> !CannotBatch(p, views, tip, actions[i], e)
    ensures forall e :: BatchGather(p, views, tip, actions) == Err(e) ==>
              exists i :: 0 <= i < |actions| && CannotBatch(p, views, tip, actions[i], e)
                          && forall j, e' :: 0 <= j < i ==> !CannotBatch(p, views, tip, actions[j], e')
    ensures BatchGather(p, views, tip, actions).Ok? ==>
              var g := BatchGather(p, views, tip, actions).value;
              |g| == |actions| && forall i :: 0 <= i < |g| ==> BatchOne(p, views, tip, actions[i]) == Ok(g[i])
  {
    if actions == [] {
    } else {
      hide BatchOne, CannotBatch;
      var d := DropLast(actions);
      BatchGatherExactly(p, views, tip, d);
      BatchOneExactly(p, views, tip, Last(actions));
      assert forall j :: 0 <= j < |d| ==> d[j] == actions[j];
    }
  }

  function BatchInputs(p: Params, views: Views, tip: Option<nat>, actions: seq<ActionItem>, est: Option<Pos>)
    : Result<(seq<Gathered>, seq<Utxo>)>
  {
    match BatchGather(p, views, tip, actions)
    case Err(e) => Err(e)
    case Ok(g) =>
      if est == None then Err(EstimatorDown)
      else if p.Home() !in views then Err(IndexerDown)
      else Ok((g, views[p.Home()]))
  }

  /** What the one-shot form works with: every action's outputs, and all wallet outputs that are listed. */
  lemma {:induction false} BatchInputsExactly(p: Params, views: Views, tip: Option<nat>, actions: seq<ActionItem>,
                                              est: Option<Pos>)
    ensures BatchInputs(p, views, tip, actions, est).Ok? <==>
              && (forall i, e :: 0 <= i < |actions| ==> !CannotBatch(p, views, tip, actions[i], e))
              && est.Some? && p.Home() in views
    ensures BatchInputs(p, views, tip, actions, est).Ok? ==>
              var (g, pool) := BatchInputs(p, views, tip, actions, est).value;
              && pool == views[p.Home()] && |g| == |actions|
              && forall i :: 0 <= i < |g| ==> BatchOne(p, views, tip, actions[i]) == Ok(g[i])
    ensures BatchGather(p, views, tip, actions).Ok? && (est == None || p.Home() !in views) ==>
              BatchInputs(p, views, tip, actions, est) == Err(if est == None then EstimatorDown else IndexerDown)
  {
    hide BatchGather, CannotBatch, BatchOne;
    BatchGatherExactly(p, views, tip, actions);
  }

  /** The position map: which action each raw input came from. */
  function Origins(g: seq<Gathered>): map<nat, ActionItem> {
    if g == [] then map[] else Origins(DropLast(g)) + Block(|RawInputs(DropLast(g))|, |Last(g).utxos|, Last(g).item)
  }

  function Block(start: nat, n: nat, a: ActionItem): map<nat, ActionItem> {
    if n == 0 then map[] else Block(start, n - 1, a)[start + n - 1 := a]
  }

  /** What signing by position does to input i. */
  function PositionInput(p: Params, origins: map<nat, ActionItem>, amounts: map<OutPoint, int>, i: nat,
                         op: OutPoint): TxIn {
    var value := AmountOf(amounts, op);
    if i in origins then
      match origins[i].action
      case Redeem => TxIn(op, p.rbfSequence, RedeemWitness(origins[i].swap.LockScript(), origins[i].secret, value))
      case Refund => TxIn(op, Uint32(origins[i].swap.waitBlock), RefundWitness(origins[i].swap.LockScript(), value))
      case _ => TxIn(op, p.rbfSequence, Unsigned)
    else TxIn(op, p.rbfSequence, KeyWitness(value))
  }

  ghost predicate SignedByPosition(p: Params, origins: map<nat, ActionItem>, amounts: map<OutPoint, int>, tx: Tx) {
    forall i :: 0 <= i < |tx.ins| ==> tx.ins[i] == PositionInput(p, origins, amounts, i, tx.ins[i].prev)
  }

  // ------------------------------------------------ the position map is a partition

  lemma {:induction false} BlockIs(start: nat, n: nat, a: ActionItem)
    ensures forall i :: i in Block(start, n, a) <==> start <= i < start + n
    ensures forall i :: start <= i < start + n ==> Block(start, n, a)[i] == a
  {
    if n == 0 {
    } else {
      BlockIs(start, n - 1, a);
    }
  }

  /** The positions are exactly those of the raw inputs. */
  lemma {:induction false} OriginsCoverRawInputs(g: seq<Gathered>)
    ensures forall i :: i in Origins(g) <==> 0 <= i < |RawInputs(g)|
    ensures |Origins(g)| == |RawInputs(g)|
  {
    if g == [] {
    } else {
      OriginsCoverRawInputs(DropLast(g));
      BlockIs(|RawInputs(DropLast(g))|, |Last(g).utxos|, Last(g).item);
    }
    Counting(Origins(g), |RawInputs(g)|);
  }

  lemma {:induction false} Counting(m: map<nat, ActionItem>, n: nat)
    requires forall i :: i in m <==> 0 <= i < n
    ensures |m| == n
  {
    if n == 0 {
      assert m == map[];
    } else {
      var rest := m - {n - 1};
      Counting(rest, n - 1);
      assert m.Keys == rest.Keys + {n - 1};
    }
  }

  /** Each position belongs to the action whose output stands there. */
  lemma {:induction false} OriginOwnsPosition(g: seq<Gathered>, j: nat, k: nat)
    requires j < |g| && k < |g[j].utxos|
    ensures Offset(g, j) + k in Origins(g) && Origins(g)[Offset(g, j) + k] == g[j].item
    decreases |g|
  {
    var d := DropLast(g);
    BlockIs(|RawInputs(d)|, |Last(g).utxos|, Last(g).item);
    if j < |d| {
      OriginOwnsPosition(d, j, k);
      RawInputAt(d, j, k);
      assert d[..j] == g[..j];
    } else {
      assert g[..j] == d;
    }
  }

  /** Every raw input position is some output of some action. */
  lemma {:induction false} PositionOf(g: seq<Gathered>, i: nat) returns (j: nat, k: nat)
    requires i < |RawInputs(g)|
    ensures j < |g| && k < |g[j].utxos| && i == Offset(g, j) + k
  {
    var d := DropLast(g);
    if i < |RawInputs(d)| {
      j, k := PositionOf(d, i);
      assert d[..j] == g[..j];
    } else {
      j, k := |d|, i - |RawInputs(d)|;
      assert g[..j] == d;
    }
  }

  // ------------------------------------------------ agreement with ExecuteRbf

  /** The actions are not foreign: what gathering lets through. */
  predicate Gatherable(x: Gathered) {
    x.item.action in {Redeem, Refund} || (x.item.action == Initiate && x.utxos == [])
  }

  /** Signing by position and signing by outpoint give every input the same witness and sequence. */
  lemma {:induction false} PositionAgreesWithKey(p: Params, g: seq<Gathered>, pool: seq<Utxo>, rate: int, tx: Tx)
    requires forall j :: 0 <= j < |g| ==> Gatherable(g[j])
    requires NoDup(Ops(RawInputs(g) + pool))
    requires Builds(p, rate, Extend(p, EMPTY_RBF, g), pool, tx)
    ensures SignedByPosition(p, Origins(g), Amounts(RawInputs(g) + pool), tx)
       <==> SignedBy(p, Extend(p, EMPTY_RBF, g), SignerTable(EMPTY_RBF, g, pool), tx)
  {
    var d, amounts := Extend(p, EMPTY_RBF, g), SignerTable(EMPTY_RBF, g, pool);
    assert [] + RawInputs(g) == RawInputs(g);
    assert amounts == Amounts(RawInputs(g) + pool);
    forall i | 0 <= i < |tx.ins|
      ensures HasPlan(d, tx.ins[i].prev)
      ensures SignedInput(p, d, amounts, tx.ins[i].prev) == PositionInput(p, Origins(g), amounts, i, tx.ins[i].prev)
    {
      SameInput(p, g, pool, rate, tx, i);
    }
  }

  lemma {:induction false} SameInput(p: Params, g: seq<Gathered>, pool: seq<Utxo>, rate: int, tx: Tx, i: nat)
    requires forall j :: 0 <= j < |g| ==> Gatherable(g[j])
    requires NoDup(Ops(RawInputs(g) + pool))
    requires Builds(p, rate, Extend(p, EMPTY_RBF, g), pool, tx) && i < |tx.ins|
    ensures HasPlan(Extend(p, EMPTY_RBF, g), tx.ins[i].prev)
    ensures forall amounts ::
      SignedInput(p, Extend(p, EMPTY_RBF, g), amounts, tx.ins[i].prev)
      == PositionInput(p, Origins(g), amounts, i, tx.ins[i].prev)
  {
    hide Builds, Extend, RawInputs, Types, Scripts, Secrets, Sequences, Origins, WitnessSize, Recipients;
    var op, raw := tx.ins[i].prev, RawInputs(g);
    StandsAt(p, g, pool, rate, tx, i);
    EmptyDraft(p, g);
    OpsConcat(raw, pool);
    assert Ops(raw) + Ops(pool) + [] == Ops(raw + pool);
    NoDupPart(Ops(raw), Ops(pool), []);
    OriginsCoverRawInputs(g);
    if i < |raw| {
      var j, k := PositionOf(g, i);
      OriginOwnsPosition(g, j, k);
      RawInputAt(g, j, k);
      OwnEntry(g, j, k);
      assert Gatherable(g[j]);
    } else {
      assert Ops(pool)[i - |raw|] == op;
      PlanCovers(g, op);
    }
  }

  lemma {:induction false} StandsAt(p: Params, g: seq<Gathered>, pool: seq<Utxo>, rate: int, tx: Tx, i: nat)
    requires Builds(p, rate, Extend(p, EMPTY_RBF, g), pool, tx) && i < |tx.ins|
    ensures i < |RawInputs(g)| + |pool| && tx.ins[i].prev == (RawInputs(g) + pool)[i].op
  {
    assert Extend(p, EMPTY_RBF, g).vin == RawInputs(g);
    hide Extend, RawInputs, VSize;
    var used := RawInputs(g) + pool[..|tx.ins| - |RawInputs(g)|];
    assert Prevs(tx.ins)[i] == Ops(used)[i];
  }

  lemma {:induction false} EmptyDraft(p: Params, g: seq<Gathered>)
    ensures SamePlan(p, Extend(p, EMPTY_RBF, g), g, [])
  {
    ScratchPlan(p, g, []);
    assert FrozenBase(p, []) == EMPTY_RBF;
  }

  /** When every output is confirmed and every refund has expired, both forms gather the same;
      and whatever the one-shot form gathers, the replaceable form gathers too. */
  lemma {:induction false} GatherAgrees(p: Params, views: Views, tip: Option<nat>, actions: seq<ActionItem>)
    requires forall a :: a in views ==> AllConfirmed(views[a])
    ensures BatchGather(p, views, tip, actions).Ok? ==>
              Gather(p, views, actions) == BatchGather(p, views, tip, actions)
    ensures Gather(p, views, actions).Ok? && AllRefundable(views, tip, actions) ==>
              BatchGather(p, views, tip, actions) == Gather(p, views, actions)
  {
    if actions == [] {
    } else {
      hide GatherOne, BatchOne;
      GatherAgrees(p, views, tip, DropLast(actions));
      GatherOneAgrees(p, views, tip, Last(actions));
    }
  }

  lemma {:induction false} GatherOneAgrees(p: Params, views: Views, tip: Option<nat>, a: ActionItem)
    requires a.swap.LockAddress() in views ==> AllConfirmed(views[a.swap.LockAddress()])
    ensures BatchOne(p, views, tip, a).Ok? ==> GatherOne(p, views, a) == BatchOne(p, views, tip, a)
    ensures GatherOne(p, views, a).Ok? && Refundable(views, tip, a) ==>
              BatchOne(p, views, tip, a) == GatherOne(p, views, a)
  {
    if a.swap.LockAddress() in views {
      ConfirmedOnlyIdentity(views[a.swap.LockAddress()]);
    }
  }

  predicate Refundable(views: Views, tip: Option<nat>, a: ActionItem) {
    a.action == Refund && a.swap.LockAddress() in views ==>
      tip.Some? && HasExpired(views[a.swap.LockAddress()], tip.value, a.swap.waitBlock)
  }

  predicate AllRefundable(views: Views, tip: Option<nat>, actions: seq<ActionItem>) {
    actions == [] || (AllRefundable(views, tip, DropLast(actions)) && Refundable(views, tip, Last(actions)))
  }

  lemma {:induction false} BatchGatherable(p: Params, views: Views, tip: Option<nat>, actions: seq<ActionItem>)
    requires BatchGather(p, views, tip, actions).Ok?
    ensures forall j :: 0 <= j < |BatchGather(p, views, tip, actions).value| ==>
            Gatherable(BatchGather(p, views, tip, actions).value[j])
  {
    if actions == [] {
    } else {
      BatchGatherable(p, views, tip, DropLast(actions));
    }
  }

  /** Same inputs: from an empty state, with everything confirmed and every refund expired, the
      two forms gather the same actions and are offered the same wallet outputs. */
  lemma {:induction false} BatchInputsAgree(p: Params, views: Views, tip: Option<nat>, actions: seq<ActionItem>,
                                            est: Option<Pos>)
    requires forall a :: a in views ==> AllConfirmed(views[a])
    ensures BatchInputs(p, views, tip, actions, est).Ok? ==>
              Inputs(p, views, actions, EMPTY_RBF, est) == BatchInputs(p, views, tip, actions, est)
    ensures Inputs(p, views, actions, EMPTY_RBF, est).Ok? && AllRefundable(views, tip, actions) ==>
              BatchInputs(p, views, tip, actions, est) == Inputs(p, views, actions, EMPTY_RBF, est)
  {
    hide Gather, BatchGather, AllConfirmed, ConfirmedOnly;
    GatherAgrees(p, views, tip, actions);
    assert EMPTY_RBF.IsNil();
    if p.Home() in views {
      ConfirmedOnlyIdentity(views[p.Home()]);
    }
  }

  /** A transaction may leave the one-shot form exactly when the replaceable form could submit it
      as the first of a chain. */
  lemma {:induction false} BatchRefinesRbf(p: Params, views: Views, tip: Option<nat>, actions: seq<ActionItem>,
                                           est: Pos, g: seq<Gathered>, pool: seq<Utxo>, tx: Tx)
    requires forall a :: a in views ==> AllConfirmed(views[a])
    requires BatchInputs(p, views, tip, actions, Some(est)) == Ok((g, pool))
    requires NoDup(Ops(RawInputs(g) + pool))
    ensures Inputs(p, views, actions, EMPTY_RBF, Some(est)) == Ok((g, pool))
    ensures Built(p, EMPTY_RBF, g, pool, est, tx, est)
       <==> Builds(p, est, Extend(p, EMPTY_RBF, g), pool, tx)
            && SignedByPosition(p, Origins(g), Amounts(RawInputs(g) + pool), tx)
  {
    hide Gather, BatchGather, AllConfirmed, Extend, RawInputs, Amounts, Origins, Builds, SignedBy, SignedByPosition,
      NoDup, Inputs, SignerTable;
    BatchInputsAgree(p, views, tip, actions, Some(est));
    BatchGatherable(p, views, tip, actions);
    assert EMPTY_RBF.IsNil();
    if Builds(p, est, Extend(p, EMPTY_RBF, g), pool, tx) {
      PositionAgreesWithKey(p, g, pool, est, tx);
    }
  }

  lemma {:induction false} FirstInputs(p: Params, views: Views, actions: seq<ActionItem>, est: Pos,
                                       g: seq<Gathered>, pool: seq<Utxo>)
    requires Inputs(p, views, actions, EMPTY_RBF, Some(est)) == Ok((g, pool))
    ensures Gather(p, views, actions) == Ok(g) && p.Home() in views && pool == ConfirmedOnly(views[p.Home()])
  {
    hide Gather, ConfirmedOnly;
    assert EMPTY_RBF.IsNil();
  }

  /** True answers, actions under keys of their own, and roles as the wallet has them make all offered
      outputs different. */
  lemma {:induction false} HonestBatchApart(p: Params, l: Ledger, views: Views, tip: Option<nat>,
                                            actions: seq<ActionItem>, est: Pos, g: seq<Gathered>, pool: seq<Utxo>)
    requires forall a :: a in views ==> AllConfirmed(views[a])
    requires TrueViews(l, views) && Records.RolesOk(p, actions) && DistinctKeys(actions)
    requires BatchInputs(p, views, tip, actions, Some(est)) == Ok((g, pool))
    ensures NoDup(Ops(RawInputs(g) + pool))
  {
    hide Gather, BatchGather, AllConfirmed, RawInputs, NoDup, TrueView, DistinctKeys, ConfirmedOnly, Keys,
      BatchInputs, Inputs, Records.ItemsOwned, Items;
    BatchInputsAgree(p, views, tip, actions, Some(est));
    FirstInputs(p, views, actions, est, g, pool);
    GatheredItems(p, views, actions);
    Records.GatheredOwned(p, l, views, actions);
    Records.TrueIsOwned(l, views[p.Home()], p.Home());
    assert [] + pool == pool && [] + RawInputs(g) + pool == RawInputs(g) + pool;
    Records.OfferedApart(l, p, g, [], pool);
  }

  /** So the one-shot form refines the replaceable one on every call with such answers. */
  lemma {:induction false} HonestBatchRefines(p: Params, l: Ledger, views: Views, tip: Option<nat>,
                                              actions: seq<ActionItem>, est: Pos, g: seq<Gathered>,
                                              pool: seq<Utxo>, tx: Tx)
    requires forall a :: a in views ==> AllConfirmed(views[a])
    requires TrueViews(l, views) && Records.RolesOk(p, actions) && DistinctKeys(actions)
    requires BatchInputs(p, views, tip, actions, Some(est)) == Ok((g, pool))
    ensures Inputs(p, views, actions, EMPTY_RBF, Some(est)) == Ok((g, pool))
    ensures Built(p, EMPTY_RBF, g, pool, est, tx, est)
       <==> Builds(p, est, Extend(p, EMPTY_RBF, g), pool, tx)
            && SignedByPosition(p, Origins(g), Amounts(RawInputs(g) + pool), tx)
  {
    hide TrueViews, Records.RolesOk, DistinctKeys, AllConfirmed, NoDup, RawInputs, Built, Builds, SignedByPosition,
      Inputs, Extend, BatchInputs;
    HonestBatchApart(p, l, views, tip, actions, est, g, pool);
    BatchRefinesRbf(p, views, tip, actions, est, g, pool, tx);
  }

  // ------------------------------------------------ the method

  /** Remembers the action at the positions its outputs will have. */
  method AddOrigins(origins: map<nat, ActionItem>, start: nat, n: nat, a: ActionItem) returns (m: map<nat, ActionItem>)
    ensures m == origins + Block(start, n, a)
  {
    m := origins;
    for i := 0 to n
      invariant m == origins + Block(start, i, a)
    {
      m := m[start + i := a];
    }
  }

  method FetchBatchItem(p: Params, client: Indexer, tip: Option<nat>, a: ActionItem)
    returns (err: Option<Error>, x: Gathered)
    ensures BatchOne(p, client.views, tip, a) == if err.None? then Ok(x) else Err(err.value)
    ensures err.None? ==> Gatherable(x)
  {
    err, x := None, Gathered(a, []);
    if a.swap.network != p.network {
      return Some(WrongNetwork), x;
    }
    match a.action {
      case Initiate =>
      case Redeem =>
        var r := client.GetUTXOs(a.swap.LockAddress());
        if r.Err? {
          return Some(r.error), x;
        }
        if |r.value| == 0 {
          return Some(SwapNotInitiated), x;
        }
        x := Gathered(a, r.value);
      case Refund =>
        var expired := Expired(client, a.swap, tip);
        if expired.Err? {
          return Some(expired.error), x;
        }
        if !expired.value {
          return Some(SwapNotExpired), x;
        }
        var r := client.GetUTXOs(a.swap.LockAddress());
        x := Gathered(a, r.value);
      case OtherAction(_) => err := Some(UnknownAction);
    }
  }

  lemma {:induction false} BatchPrefixError(p: Params, views: Views, tip: Option<nat>, actions: seq<ActionItem>, i: nat)
    requires i <= |actions| && BatchGather(p, views, tip, actions[..i]).Err?
    ensures BatchGather(p, views, tip, actions) == BatchGather(p, views, tip, actions[..i])
    decreases |actions| - i
  {
    if i < |actions| {
      assert DropLast(actions[..i + 1]) == actions[..i];
      BatchPrefixError(p, views, tip, actions, i + 1);
    } else {
      assert actions[..i] == actions;
    }
  }

  /** The state the batch loop builds up. */
  datatype Batch = Batch(recipients: seq<TxOut>, vin: seq<Utxo>, segwit: nat, origins: map<nat, ActionItem>,
                        fetcher: map<OutPoint, int>)

  ghost predicate Holds(p: Params, b: Batch, g: seq<Gathered>) {
    && b.recipients == Recipients(g)
    && b.vin == RawInputs(g)
    && b.segwit == WitnessSize(p, g)
    && b.origins == Origins(g)
    && b.fetcher == Amounts(RawInputs(g))
    && (forall j :: 0 <= j < |g| ==> Gatherable(g[j]))
  }

  /** The batch state with one more action. */
  function BatchWith(p: Params, b: Batch, x: Gathered): Batch {
    Batch(b.recipients + Pays(x), b.vin + x.utxos, b.segwit + |x.utxos| * InputSize(p, x),
          b.origins + Block(|b.vin|, |x.utxos|, x.item), Amounts(b.vin + x.utxos))
  }

  lemma {:induction false} BatchStep(p: Params, b: Batch, g: seq<Gathered>, x: Gathered)
    requires Holds(p, b, g) && Gatherable(x)
    ensures Holds(p, BatchWith(p, b, x), g + [x]) && b.fetcher == Amounts(b.vin)
  {
    hide RawInputs, Recipients, WitnessSize, Types, Scripts, Secrets, Sequences, Amounts, Origins, Block, Gatherable,
      Pays, InputSize,
      TypesOf, SecretsOf, SequencesOf, Mark;
    PlanOne(p, g, x);
    OriginsOne(g, x);
  }

  lemma {:induction false} OriginsOne(g: seq<Gathered>, x: Gathered)
    ensures Origins(g + [x]) == Origins(g) + Block(|RawInputs(g)|, |x.utxos|, x.item)
  {
    hide RawInputs, Block;
    var gx := g + [x];
    assert gx != [] && DropLast(gx) == g && Last(gx) == x;
  }

  method AddBatchItem(p: Params, b: Batch, x: Gathered) returns (b': Batch)
    requires Gatherable(x) && b.fetcher == Amounts(b.vin)
    ensures b' == BatchWith(p, b, x)
  {
    hide Amounts, Block;
    var origins := AddOrigins(b.origins, |b.vin|, |x.utxos|, x.item);
    var fetcher := AddPrevOuts(b.fetcher, b.vin, x.utxos);
    match x.item.action {
      case Initiate =>
        var to := TxOut(x.item.swap.LockAddress(), x.item.swap.amount);
        b' := Batch(b.recipients + [to], b.vin, b.segwit, origins, fetcher);
        assert b.vin + x.utxos == b.vin;
      case Redeem =>
        var size := |x.utxos| * p.redeemSize(|x.item.secret|);
        b' := Batch(b.recipients, b.vin + x.utxos, b.segwit + size, origins, fetcher);
        assert b.recipients + Pays(x) == b.recipients;
      case Refund =>
        var size := |x.utxos| * p.refundSize;
        b' := Batch(b.recipients, b.vin + x.utxos, b.segwit + size, origins, fetcher);
        assert b.recipients + Pays(x) == b.recipients;
    }
  }

  lemma {:induction false} NothingHeld(p: Params)
    ensures Holds(p, Batch([], [], 0, map[], map[]), [])
  {
  }

  method CollectBatch(p: Params, client: Indexer, tip: Option<nat>, actions: seq<ActionItem>)
    returns (err: Option<Error>, b: Batch, ghost g: seq<Gathered>)
    ensures BatchGather(p, client.views, tip, actions) == if err.None? then Ok(g) else Err(err.value)
    ensures err.None? ==> Holds(p, b, g)
  {
    hide Holds, BatchOne, Amounts, RawInputs, Origins, BatchWith, Gatherable;
    err, b, g := None, Batch([], [], 0, map[], map[]), [];
    NothingHeld(p);
    for i := 0 to |actions|
      invariant err.None? && BatchGather(p, client.views, tip, actions[..i]) == Ok(g)
      invariant Holds(p, b, g)
    {
      assert DropLast(actions[..i + 1]) == actions[..i];
      var x: Gathered;
      err, x := FetchBatchItem(p, client, tip, actions[i]);
      if err.Some? {
        BatchPrefixError(p, client.views, tip, actions, i + 1);
        return;
      }
      BatchStep(p, b, g, x);
      b := AddBatchItem(p, b, x);
      g := g + [x];
    }
    assert actions[..|actions|] == actions;
  }

  /** Sets the refund sequences, then signs; an input is a swap's when its index is below the
      number of recorded positions. */
  method SignByPosition(p: Params, origins: map<nat, ActionItem>, fetcher: map<OutPoint, int>, tx: Tx,
                        ghost g: seq<Gathered>)
    returns (signed: Tx)
    requires Fresh(p, tx) && origins == Origins(g)
    ensures SignedByPosition(p, origins, fetcher, signed)
    ensures Prevs(signed.ins) == Prevs(tx.ins) && signed.outs == tx.outs
  {
    OriginsCoverRawInputs(g);
    hide Origins, RawInputs;
    var n := |tx.ins|;
    var ins := new TxIn[n](i requires 0 <= i < n => tx.ins[i]);
    for i := 0 to n
      invariant forall k :: i <= k < n ==> ins[k] == tx.ins[k]
      invariant forall k :: 0 <= k < i ==> ins[k] == TxIn(tx.ins[k].prev, PositionSequence(p, origins, k), Unsigned)
    {
      if i in origins && origins[i].action == Refund {
        ins[i] := ins[i].(sequence := Uint32(origins[i].swap.waitBlock));
      }
    }
    for i := 0 to n
      invariant forall k :: i <= k < n ==> ins[k] == TxIn(tx.ins[k].prev, PositionSequence(p, origins, k), Unsigned)
      invariant forall k :: 0 <= k < i ==> ins[k] == PositionInput(p, origins, fetcher, k, tx.ins[k].prev)
    {
      var value := AmountOf(fetcher, ins[i].prev);
      if i < |origins| {
        var a := origins[i];
        if a.action == Redeem {
          ins[i] := ins[i].(unlock := RedeemWitness(a.swap.LockScript(), a.secret, value));
        } else if a.action == Refund {
          ins[i] := ins[i].(unlock := RefundWitness(a.swap.LockScript(), value));
        }
      } else {
        ins[i] := ins[i].(unlock := KeyWitness(value));
      }
    }
    signed := Tx(ins[..], tx.outs);
  }

  function PositionSequence(p: Params, origins: map<nat, ActionItem>, i: nat): int {
    if i in origins && origins[i].action == Refund then Uint32(origins[i].swap.waitBlock) else p.rbfSequence
  }

  /** A transaction that pays the whole batch and is signed by position. */
  ghost predicate BatchReady(p: Params, g: seq<Gathered>, pool: seq<Utxo>, rate: int, tx: Tx) {
    && Builds(p, rate, Extend(p, EMPTY_RBF, g), pool, tx)
    && SignedByPosition(p, Origins(g), Amounts(RawInputs(g) + pool), tx)
  }

  /** Builds, signs and submits one transaction for all actions; no actions is no transaction. `ready`
      is what is handed to the node, which may take it although the call reports an error. */
  method BatchExecute(p: Params, client: Indexer, actions: seq<ActionItem>, est: Option<Pos>, tip: Option<nat>)
    returns (tx: Option<Tx>, err: Option<Error>, ghost g: seq<Gathered>, ghost pool: seq<Utxo>,
             ghost ready: Option<Tx>)
    modifies client`ledger
    ensures actions == [] ==> tx == None && err == None && ready == None
    ensures ready == None ==> tx == None && client.ledger == old(client.ledger)
    ensures actions != [] ==>
      && (err.None? <==> tx.Some?)
      && match BatchInputs(p, client.views, tip, actions, est)
         case Err(e) => err == Some(e) && ready == None
         case Ok(found) =>
           && (g, pool) == found && (forall j :: 0 <= j < |g| ==> Gatherable(g[j]))
           && (ready == None ==> err == Some(BuildFailed) && !CanBuild(p, est.value, Extend(p, EMPTY_RBF, g), pool))
           && (ready.Some? ==> BatchReady(p, g, pool, est.value, ready.value))
    ensures ready.Some? ==>
      if !Spendable(old(client.ledger), ready.value) then
        err == Some(InputsMissingOrSpent) && tx == None && client.ledger == old(client.ledger)
      else if !client.accepts(ready.value) then
        err == Some(SubmitFailed) && tx == None && client.ledger == old(client.ledger)
      else
        && client.ledger == old(client.ledger).Broadcast(ready.value)
        && if client.loses(ready.value) then err == Some(SubmitFailed) && tx == None else err == None && tx == ready
  {
    hide CanBuild, BatchReady, BatchGather, Extend, Origins, Amounts, RawInputs, Recipients, WitnessSize, Spendable;
    tx, err, g, pool, ready := None, None, [], [], None;
    if |actions| == 0 {
      return;
    }
    var b: Batch;
    err, b, g := CollectBatch(p, client, tip, actions);
    if err.Some? {
      return;
    }
    if est.None? {
      err := Some(EstimatorDown);
      return;
    }
    var answer := client.GetUTXOs(p.Home());
    if answer.Err? {
      err := Some(answer.error);
      return;
    }
    pool := answer.value;
    var signed;
    err, signed := BuildBatch(p, b, answer.value, est.value, g);
    if err.Some? {
      return;
    }
    ready := Some(signed);
    err := client.SubmitTx(signed);
    if err.None? {
      tx := Some(signed);
    }
  }

  method BuildBatch(p: Params, b: Batch, utxos: seq<Utxo>, rate: Pos,
                    ghost g: seq<Gathered>) returns (err: Option<Error>, signed: Tx)
    requires Holds(p, b, g)
    ensures err.Some? ==> err.value == BuildFailed && !CanBuild(p, rate, Extend(p, EMPTY_RBF, g), utxos)
    ensures err.None? ==> BatchReady(p, g, utxos, rate, signed)
  {
    hide Extend, Builds, Types, Scripts, Secrets, Sequences, RawInputs, Recipients, WitnessSize, Origins,
      SignedByPosition, CanBuild;
    EmptyDraft(p, g);
    var fetcher := AddPrevOuts(b.fetcher, b.vin, utxos);
    var draft := EMPTY_RBF.(recipients := b.recipients, vin := b.vin, segwit := b.segwit);
    var built := BuildRbfTransaction(p, rate, draft, utxos);
    signed := Tx([], []);
    if built.Err? {
      SameFunds(p, rate, draft, Extend(p, EMPTY_RBF, g), utxos);
      return Some(built.error), signed;
    }
    SameBuild(p, rate, draft, Extend(p, EMPTY_RBF, g), utxos, built.value);
    signed := SignByPosition(p, b.origins, fetcher, built.value, g);
    SigningKeeps(p, rate, Extend(p, EMPTY_RBF, g), utxos, fetcher, built.value, signed);
    err := None;
  }

  lemma {:induction false} SameFunds(p: Params, rate: int, d: Rbf, e: Rbf, pool: seq<Utxo>)
    requires d.vin == e.vin && d.segwit == e.segwit && d.recipients == e.recipients
    ensures CanBuild(p, rate, d, pool) <==> CanBuild(p, rate, e, pool)
  {
    assert forall k :: 0 <= k <= |pool| ==> (PaysWith(p, rate, d, pool, k) <==> PaysWith(p, rate, e, pool, k));
  }

  /** The builder's promise depends on inputs, outputs and size only. */
  lemma {:induction false} SameBuild(p: Params, rate: int, d: Rbf, e: Rbf, pool: seq<Utxo>, tx: Tx)
    requires d.vin == e.vin && d.segwit == e.segwit && d.recipients == e.recipients
    requires Builds(p, rate, d, pool, tx)
    ensures Builds(p, rate, e, pool, tx)
  {
  }
}
