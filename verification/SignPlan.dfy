/** Every input of every transaction in a chain is signed as the action that brought it in
    requires, spends a different outpoint, and is counted once by the size estimate. */
module SignPlan {
  import opened Bitcoin
  import opened RbfPlan
  import opened RbfChain

  // ------------------------------------------------ positions

  /** Where the outputs of the j-th gathered action start among the raw inputs. */
  function Offset(g: seq<Gathered>, j: nat): nat
    requires j <= |g|
  {
    |RawInputs(g[..j])|
  }

  lemma {:induction false} RawInputAt(g: seq<Gathered>, j: nat, k: nat)
    requires j < |g| && k < |g[j].utxos|
    ensures Offset(g, j) + k < |RawInputs(g)| && RawInputs(g)[Offset(g, j) + k] == g[j].utxos[k]
    decreases |g|
  {
    if j < |g| - 1 {
      RawInputAt(DropLast(g), j, k);
      assert DropLast(g)[..j] == g[..j];
    } else {
      assert g[..j] == DropLast(g);
    }
  }

  lemma {:induction false} NoDupPart<T>(a: seq<T>, b: seq<T>, c: seq<T>)
    requires NoDup(a + b + c)
    ensures NoDup(a) && NoDup(b) && NoDup(c)
    ensures forall x :: x in a ==> x !in b && x !in c
    ensures forall x :: x in b ==> x !in c
  {
    var s := a + b + c;
    assert forall i :: 0 <= i < |a| ==> s[i] == a[i];
    assert forall i :: 0 <= i < |b| ==> s[|a| + i] == b[i];
    assert forall i :: 0 <= i < |c| ==> s[|a| + |b| + i] == c[i];
  }

  // ------------------------------------------------ the maps hold each action's own data

  /** Whatever was gathered, every mapped outpoint has all its signing data. */
  lemma {:induction false} PlanCovers(g: seq<Gathered>, op: OutPoint)
    ensures op in Types(g) <==> op in Ops(RawInputs(g))
    ensures op in Types(g) ==> op in Scripts(g) && Types(g)[op] in {RedeemSig, RefundSig}
    ensures op in Types(g) && Types(g)[op] == RedeemSig ==> op in Secrets(g)
    ensures op in Types(g) && Types(g)[op] == RefundSig ==> op in Sequences(g)
  {
    if g == [] {
    } else {
      var d, x := DropLast(g), Last(g);
      PlanCovers(d, op);
      OpsConcat(RawInputs(d), x.utxos);
      MarkedItem(x, op);
    }
  }

  lemma {:induction false} MarkedItem(x: Gathered, op: OutPoint)
    ensures op in TypesOf(x) <==> op in Ops(x.utxos)
    ensures op in Mark(x.utxos, x.item.swap.LockScript()) <==> op in Ops(x.utxos)
    ensures op in Ops(x.utxos) ==> Mark(x.utxos, x.item.swap.LockScript())[op] == x.item.swap.LockScript()
    ensures op in Ops(x.utxos) ==> TypesOf(x)[op] == if x.item.action == Redeem then RedeemSig else RefundSig
    ensures op in SecretsOf(x) <==> x.item.action == Redeem && op in Ops(x.utxos)
    ensures op in SecretsOf(x) ==> SecretsOf(x)[op] == x.item.secret
    ensures op in SequencesOf(x) <==> x.item.action != Redeem && op in Ops(x.utxos)
    ensures op in SequencesOf(x) ==> SequencesOf(x)[op] == Uint32(x.item.swap.waitBlock)
  {
    MarkIs(x.utxos, if x.item.action == Redeem then RedeemSig else RefundSig);
    MarkIs(x.utxos, x.item.swap.LockScript());
    MarkIs(x.utxos, x.item.secret);
    MarkIs(x.utxos, Uint32(x.item.swap.waitBlock));
  }

  /** The entry of an outpoint is its own action's, however many actions came later. */
  ghost predicate HoldsFor(d: Rbf, x: Gathered, op: OutPoint) {
    && op in d.sigType && op in d.sigScript
    && d.sigScript[op] == x.item.swap.LockScript()
    && d.sigType[op] == (if x.item.action == Redeem then RedeemSig else RefundSig)
    && (x.item.action == Redeem ==> op in d.sigSecret && d.sigSecret[op] == x.item.secret)
    && (x.item.action != Redeem ==> op in d.sigSequence && d.sigSequence[op] == Uint32(x.item.swap.waitBlock))
  }

  function MapsOf(g: seq<Gathered>): Rbf {
    EMPTY_RBF.(sigType := Types(g), sigScript := Scripts(g), sigSecret := Secrets(g), sigSequence := Sequences(g))
  }

  lemma {:induction false} OwnEntry(g: seq<Gathered>, j: nat, k: nat)
    requires NoDup(Ops(RawInputs(g))) && j < |g| && k < |g[j].utxos|
    ensures HoldsFor(MapsOf(g), g[j], g[j].utxos[k].op)
    decreases |g|
  {
    var d, x, op := DropLast(g), Last(g), g[j].utxos[k].op;
    MarkedItem(x, op);
    if j == |g| - 1 {
      assert Ops(x.utxos)[k] == op;
    } else {
      OpsConcat(RawInputs(d), x.utxos);
      assert Ops(RawInputs(g)) == Ops(RawInputs(d)) + Ops(x.utxos) + [];
      NoDupPart(Ops(RawInputs(d)), Ops(x.utxos), []);
      RawInputAt(d, j, k);
      assert Ops(RawInputs(d))[Offset(d, j) + k] == op;
      OwnEntry(d, j, k);
    }
  }

  // ------------------------------------------------ no replacement lacks signing data

  ghost predicate SamePlan(p: Params, d: Rbf, h: seq<Gathered>, frozen: seq<Utxo>) {
    && d.sigType == Types(h) && d.sigScript == Scripts(h)
    && d.sigSecret == Secrets(h) && d.sigSequence == Sequences(h)
    && d.vin == frozen + RawInputs(h)
    && d.segwit == |frozen| * p.keyWeight + WitnessSize(p, h)
    && d.recipients == Recipients(h)
  }

  lemma {:induction false} ScratchPlan(p: Params, h: seq<Gathered>, frozen: seq<Utxo>)
    ensures SamePlan(p, Extend(p, FrozenBase(p, frozen), h), h, frozen)
  {
    hide RawInputs, WitnessSize, Recipients, Types, Scripts, Secrets, Sequences;
    assert map[] + Types(h) == Types(h);
    assert map[] + Scripts(h) == Scripts(h);
    assert map[] + Secrets(h) == Secrets(h);
    assert map[] + Sequences(h) == Sequences(h);
    assert [] + Recipients(h) == Recipients(h);
  }

  /** The draft of a single initiate: one recipient and nothing to spend. */
  lemma {:induction false} InitiateDraft(p: Params, item: ActionItem)
    requires item.action == Initiate
    ensures
      var d := Extend(p, EMPTY_RBF, [Gathered(item, [])]);
      && d.vin == [] && d.segwit == 0 && d.sigType == map[]
      && d.recipients == [TxOut(item.swap.LockAddress(), item.swap.amount)]
      && RawInputs([Gathered(item, [])]) == []
  {
    var x := Gathered(item, []);
    var g := [x];
    assert DropLast(g) == [] && Last(g) == x;
    ScratchPlan(p, g, []);
    assert FrozenBase(p, []) == EMPTY_RBF;
    hide Extend;
    assert Types(g) == map[] && RawInputs(g) == [] && WitnessSize(p, g) == 0;
    assert Recipients(g) == [] + Pays(x);
  }

  /** The draft a call builds from holds the plan of the whole history. */
  lemma {:induction false} DraftMaps(p: Params, r: Rbf, hist: seq<Gathered>, frozen: seq<Utxo>, g: seq<Gathered>)
    requires Planned(p, r, hist, frozen)
    ensures SamePlan(p, Extend(p, r, g), hist + g, frozen)
  {
    PlannedDraft(p, r, hist, frozen, g);
    hide Planned, Extend;
    ScratchPlan(p, hist + g, frozen);
  }

  /** In a chain the errors about missing signing data cannot occur. */
  lemma {:induction false} SigningDataIsComplete(p: Params, r: Rbf, hist: seq<Gathered>, frozen: seq<Utxo>,
      g: seq<Gathered>, pool: seq<Utxo>)
    requires Planned(p, r, hist, frozen)
    ensures !CannotSign(p, r, g, pool)
  {
    DraftMaps(p, r, hist, frozen, g);
    hide Planned, Builds, Extend;
    var d := Extend(p, r, g);
    forall tx ensures !HasUnplanned(d, tx) {
      forall i | 0 <= i < |tx.ins| ensures HasPlan(d, tx.ins[i].prev) {
        PlanCovers(hist + g, tx.ins[i].prev);
      }
    }
  }

  // ------------------------------------------------ every input is signed right

  /** How an output brought in by an action must be spent. */
  function PlannedInput(p: Params, x: Gathered, u: Utxo): TxIn {
    if x.item.action == Redeem then
      TxIn(u.op, p.rbfSequence, RedeemWitness(x.item.swap.LockScript(), x.item.secret, u.amount))
    else
      TxIn(u.op, Uint32(x.item.swap.waitBlock), RefundWitness(x.item.swap.LockScript(), u.amount))
  }

  /** The number of blocks a sequence locks an input for; absent when the lock is disabled (bit 31)
      or counts time (bit 22). Section "Specification" of BIP 68. */
  function LockedBlocks(sequence: int): Option<nat> {
    if sequence / 0x8000_0000 % 2 == 1 || sequence / 0x40_0000 % 2 == 1 then None else Some(sequence % 0x1_0000)
  }

  /** The sequence of a refund locks it for exactly the swap's timelock if and only if that fits
      16 bits. */
  lemma {:induction false} RefundLocksExactly(p: Params, x: Gathered, u: Utxo)
    requires x.item.action == Refund
    ensures
      var blocks := x.item.swap.waitBlock;
      (var locked := LockedBlocks(PlannedInput(p, x, u).sequence); locked.Some? && locked.value == blocks)
      <==> 0 <= blocks < 0x1_0000
  {
    LockExactly(x.item.swap.waitBlock);
  }

  /** In general the sequence is the timelock modulo 2^32. */
  lemma {:induction false} SequenceIsTruncated(p: Params, x: Gathered, u: Utxo)
    requires x.item.action == Refund
    ensures
      var n, sequence := x.item.swap.waitBlock, PlannedInput(p, x, u).sequence;
      && 0 <= sequence < 0x1_0000_0000 && (0 <= n < 0x1_0000_0000 ==> sequence == n)
      && exists k :: n == sequence + k * 0x1_0000_0000
  {
    var n := x.item.swap.waitBlock;
    assert n == PlannedInput(p, x, u).sequence + (n / 0x1_0000_0000) * 0x1_0000_0000;
  }

  lemma {:induction false} LockExactly(n: int)
    ensures (LockedBlocks(Uint32(n)).Some? && LockedBlocks(Uint32(n)).value == n) <==> 0 <= n < 0x1_0000
  {
    if 0 <= n < 0x1_0000 {
      assert Uint32(n) == n && n / 0x8000_0000 == 0 && n / 0x40_0000 == 0;
    }
  }

  function WalletInput(p: Params, u: Utxo): TxIn {
    TxIn(u.op, p.rbfSequence, KeyWitness(u.amount))
  }

  /** The outputs a transaction of the call may spend: stored, newly gathered, wallet. */
  function Offered(r: Rbf, c: Call): seq<Utxo> {
    r.vin + RawInputs(c.g) + c.pool
  }

  lemma {:induction false} InputIsSigned(p: Params, r: Rbf, c: Call, i: nat)
    requires Succeeds(p, r, c) && i < |c.tx.ins| && NoDup(Ops(Offered(r, c)))
    ensures i < |Offered(r, c)| && c.tx.ins[i].prev == Offered(r, c)[i].op
    ensures AmountOf(SignerTable(r, c.g, c.pool), c.tx.ins[i].prev) == Offered(r, c)[i].amount
    ensures HasPlan(Extend(p, r, c.g), c.tx.ins[i].prev)
    ensures c.tx.ins[i] == SignedInput(p, Extend(p, r, c.g), SignerTable(r, c.g, c.pool), c.tx.ins[i].prev)
  {
    hide SignedInput, HasPlan, VSize, TotalFee, Record, Types, Scripts, Secrets, Sequences, Amounts;
    var d := Extend(p, r, c.g);
    var used := d.vin + c.pool[..|c.tx.ins| - |d.vin|];
    assert Prevs(c.tx.ins)[i] == Ops(used)[i];
    assert used[i] == Offered(r, c)[i];
    AmountsTrue(Offered(r, c), i);
  }

  /** The inputs of a transaction over history `h`: frozen wallet inputs, then each action's
      outputs in order, then outputs taken from the pool. */
  ghost predicate SignedAsPlanned(p: Params, h: seq<Gathered>, frozen: seq<Utxo>, pool: seq<Utxo>, ins: seq<TxIn>) {
    var n := |frozen| + |RawInputs(h)|;
    && n <= |ins| <= n + |pool|
    && (forall j, k :: 0 <= j < |h| && 0 <= k < |h[j].utxos| ==> ActionInputAt(p, h, frozen, ins, j, k))
    && (forall i :: 0 <= i < |frozen| ==> ins[i] == WalletInput(p, frozen[i]))
    && (forall i :: n <= i < |ins| ==> ins[i] == WalletInput(p, pool[i - n]))
  }

  ghost predicate ActionInputAt(p: Params, h: seq<Gathered>, frozen: seq<Utxo>, ins: seq<TxIn>, j: nat, k: nat)
    requires j < |h| && k < |h[j].utxos|
  {
    && |frozen| + Offset(h, j) + k < |ins|
    && ins[|frozen| + Offset(h, j) + k] == PlannedInput(p, h[j], h[j].utxos[k])
  }

  /** Every input a gathered action brought in, now or in any earlier call, is signed with that
      action's script and secret, or its script and timelock; every other input is the wallet's
      own. All signatures commit to the output's true amount. */
  lemma {:induction false} SignPlanIsRight(p: Params, r: Rbf, hist: seq<Gathered>, frozen: seq<Utxo>, c: Call)
    requires Planned(p, r, hist, frozen) && Succeeds(p, r, c) && NoDup(Ops(Offered(r, c)))
    ensures SignedAsPlanned(p, hist + c.g, frozen, c.pool, c.tx.ins)
  {
    hide Planned, Succeeds, Extend, SignerTable, RawInputs, Offered, Types, Scripts, Secrets, Sequences, WitnessSize,
      Recipients;
    var h, n := hist + c.g, |frozen| + |RawInputs(hist + c.g)|;
    InputCount(p, r, hist, frozen, c);
    forall j, k | 0 <= j < |h| && 0 <= k < |h[j].utxos| ensures ActionInputAt(p, h, frozen, c.tx.ins, j, k) {
      ActionInput(p, r, hist, frozen, c, j, k);
    }
    forall i | 0 <= i < |frozen| ensures c.tx.ins[i] == WalletInput(p, frozen[i]) {
      OwnInput(p, r, hist, frozen, c, i);
    }
    forall i | n <= i < |c.tx.ins| ensures c.tx.ins[i] == WalletInput(p, c.pool[i - n]) {
      OwnInput(p, r, hist, frozen, c, i);
    }
  }

  lemma {:induction false} InputCount(p: Params, r: Rbf, hist: seq<Gathered>, frozen: seq<Utxo>, c: Call)
    requires Planned(p, r, hist, frozen) && Succeeds(p, r, c)
    ensures
      var n := |frozen| + |RawInputs(hist + c.g)|;
      && Extend(p, r, c.g).vin == frozen + RawInputs(hist + c.g)
      && n <= |c.tx.ins| <= n + |c.pool|
      && Prevs(c.tx.ins) == Ops(frozen + RawInputs(hist + c.g) + c.pool[..|c.tx.ins| - n])
  {
    hide Planned, Extend, SignerTable, SignedBy, RawInputs, VSize, TotalFee, Record;
    DraftMaps(p, r, hist, frozen, c.g);
  }

  lemma {:induction false} ActionInput(p: Params, r: Rbf, hist: seq<Gathered>, frozen: seq<Utxo>, c: Call, j: nat,
                                       k: nat)
    requires Planned(p, r, hist, frozen) && Succeeds(p, r, c) && NoDup(Ops(Offered(r, c)))
    requires j < |hist + c.g| && k < |(hist + c.g)[j].utxos|
    requires |frozen| + |RawInputs(hist + c.g)| <= |c.tx.ins|
    ensures
      var h := hist + c.g;
      && |frozen| + Offset(h, j) + k < |c.tx.ins|
      && c.tx.ins[|frozen| + Offset(h, j) + k] == PlannedInput(p, h[j], h[j].utxos[k])
  {
    hide Planned, Succeeds, Extend, SignerTable, RawInputs, Offered, Types, Scripts, Secrets, Sequences, WitnessSize,
      Recipients;
    var h := hist + c.g;
    DraftMaps(p, r, hist, frozen, c.g);
    OfferedSplits(p, r, hist, frozen, c);
    RawInputAt(h, j, k);
    OwnEntry(h, j, k);
    InputIsSigned(p, r, c, |frozen| + Offset(h, j) + k);
  }

  lemma {:induction false} OwnInput(p: Params, r: Rbf, hist: seq<Gathered>, frozen: seq<Utxo>, c: Call, i: nat)
    requires Planned(p, r, hist, frozen) && Succeeds(p, r, c) && NoDup(Ops(Offered(r, c)))
    requires i < |frozen| || |frozen| + |RawInputs(hist + c.g)| <= i
    requires i < |c.tx.ins| <= |frozen| + |RawInputs(hist + c.g)| + |c.pool|
    ensures
      var n := |frozen| + |RawInputs(hist + c.g)|;
      c.tx.ins[i] == WalletInput(p, if i < |frozen| then frozen[i] else c.pool[i - n])
  {
    hide Planned, Succeeds, Extend, SignerTable, RawInputs, Offered, Types, Scripts, Secrets, Sequences, WitnessSize,
      Recipients;
    var h := hist + c.g;
    DraftMaps(p, r, hist, frozen, c.g);
    OfferedSplits(p, r, hist, frozen, c);
    var u := Offered(r, c)[i];
    if i < |frozen| {
      assert Ops(frozen)[i] == u.op;
    } else {
      assert Ops(c.pool)[i - |frozen| - |RawInputs(h)|] == u.op;
    }
    PlanCovers(h, u.op);
    InputIsSigned(p, r, c, i);
  }

  lemma {:induction false} OfferedSplits(p: Params, r: Rbf, hist: seq<Gathered>, frozen: seq<Utxo>, c: Call)
    requires Extend(p, r, c.g).vin == frozen + RawInputs(hist + c.g) && NoDup(Ops(Offered(r, c)))
    ensures Offered(r, c) == frozen + RawInputs(hist + c.g) + c.pool
    ensures NoDup(Ops(RawInputs(hist + c.g)))
    ensures forall op :: op in Ops(RawInputs(hist + c.g)) ==> op !in Ops(frozen) && op !in Ops(c.pool)
  {
    var raw := RawInputs(hist + c.g);
    OpsConcat(frozen, raw);
    OpsConcat(frozen + raw, c.pool);
    NoDupPart(Ops(frozen), Ops(raw), Ops(c.pool));
  }

  // ------------------------------------------------ no outpoint twice

  lemma {:induction false} NoDupPrefix<T>(a: seq<T>, b: seq<T>)
    requires a <= b && NoDup(b)
    ensures NoDup(a)
  {
  }

  /** A transaction's inputs are taken from the offered outputs in order. */
  lemma {:induction false} PrevsAreOffered(p: Params, r: Rbf, c: Call)
    requires Succeeds(p, r, c)
    ensures Prevs(c.tx.ins) <= Ops(Offered(r, c))
    ensures r.vin + RawInputs(c.g) == [] ==> Prevs(c.tx.ins) == Ops(c.pool[..|c.tx.ins|])
  {
    hide SignedInput, HasPlan, VSize, TotalFee, Types, Scripts, Secrets, Sequences, Amounts, WitnessSize, Record,
      RawInputs;
    var d := Extend(p, r, c.g);
    var k := |c.tx.ins| - |d.vin|;
    OpsConcat(d.vin, c.pool[..k]);
    OpsConcat(d.vin, c.pool);
    assert Ops(c.pool)[..k] == Ops(c.pool[..k]);
    if d.vin == [] {
      assert d.vin + c.pool[..k] == c.pool[..k];
    }
  }

  /** What is stored: everything offered, or, when wallet inputs are frozen, the pool split at
      the last used output. */
  lemma {:induction false} StoredOps(p: Params, r: Rbf, c: Call)
    requires Succeeds(p, r, c)
    ensures Ops(c.next.vin + c.next.firstUtxos) == Ops(Offered(r, c))
  {
    PrevsAreOffered(p, r, c);
    hide SignedBy, VSize, TotalFee, Types, Scripts, Secrets, Sequences, WitnessSize, RawInputs, Builds, SignerTable;
    var d, k := Extend(p, r, c.g), |c.tx.ins|;
    if |d.vin| == 0 {
      assert r.vin + RawInputs(c.g) == [];
      assert |Prevs(c.tx.ins)| == k && k <= |c.pool|;
      assert Ops(c.next.vin) == Prevs(c.tx.ins) == Ops(c.pool[..k]);
      OpsConcat(c.next.vin, c.pool[k..]);
      OpsConcat(c.pool[..k], c.pool[k..]);
      assert c.pool[..k] + c.pool[k..] == c.pool == Offered(r, c);
    } else {
      assert c.next.vin + c.next.firstUtxos == Offered(r, c);
    }
  }

  /** A transaction spends different outpoints, and the stored options stay free of repeats,
      also when the first transaction's wallet inputs are split off the pool. */
  lemma {:induction false} NoOutpointTwice(p: Params, r: Rbf, c: Call)
    requires Succeeds(p, r, c) && NoDup(Ops(Offered(r, c)))
    ensures NoDup(Prevs(c.tx.ins))
    ensures NoDup(Ops(c.next.vin + c.next.firstUtxos))
  {
    hide Succeeds, Offered;
    PrevsAreOffered(p, r, c);
    StoredOps(p, r, c);
    NoDupPrefix(Prevs(c.tx.ins), Ops(Offered(r, c)));
  }

  // ------------------------------------------------ the size estimate

  function SizeOf(p: Params, d: Rbf, op: OutPoint): nat {
    match TypeOf(d, op)
    case RedeemSig => p.redeemSize(if op in d.sigSecret then |d.sigSecret[op]| else 0)
    case RefundSig => p.refundSize
    case _ => p.keyWeight
  }

  function SumSizes(p: Params, d: Rbf, ops: seq<OutPoint>): nat {
    if ops == [] then 0 else SumSizes(p, d, DropLast(ops)) + SizeOf(p, d, Last(ops))
  }

  lemma {:induction false} SumSizesConcat(p: Params, d: Rbf, a: seq<OutPoint>, b: seq<OutPoint>)
    ensures SumSizes(p, d, a + b) == SumSizes(p, d, a) + SumSizes(p, d, b)
  {
    if b == [] {
      assert a + b == a;
    } else {
      assert DropLast(a + b) == a + DropLast(b);
      SumSizesConcat(p, d, a, DropLast(b));
    }
  }

  lemma {:induction false} SumSizesEqual(p: Params, d: Rbf, ops: seq<OutPoint>, size: nat)
    requires forall i :: 0 <= i < |ops| ==> SizeOf(p, d, ops[i]) == size
    ensures SumSizes(p, d, ops) == |ops| * size
  {
    if ops == [] {
    } else {
      SumSizesEqual(p, d, DropLast(ops), size);
      assert |ops| * size == (|ops| - 1) * size + size;
    }
  }

  /** The running witness size over the first n actions. */
  lemma {:induction false} RunningSize(p: Params, h: seq<Gathered>, n: nat)
    requires n <= |h| && NoDup(Ops(RawInputs(h)))
    ensures SumSizes(p, MapsOf(h), Ops(RawInputs(h[..n]))) == WitnessSize(p, h[..n])
  {
    if n == 0 {
    } else {
      var x := h[n - 1];
      RunningSize(p, h, n - 1);
      assert DropLast(h[..n]) == h[..n - 1];
      forall i | 0 <= i < |Ops(x.utxos)| ensures SizeOf(p, MapsOf(h), Ops(x.utxos)[i]) == InputSize(p, x) {
        OwnEntry(h, n - 1, i);
      }
      SumSizesEqual(p, MapsOf(h), Ops(x.utxos), InputSize(p, x));
      OpsConcat(RawInputs(h[..n - 1]), x.utxos);
      SumSizesConcat(p, MapsOf(h), Ops(RawInputs(h[..n - 1])), Ops(x.utxos));
    }
  }

  lemma {:induction false} WalletSizes(p: Params, d: Rbf, us: seq<Utxo>)
    requires forall i :: 0 <= i < |us| ==> us[i].op !in d.sigType
    ensures SumSizes(p, d, Ops(us)) == |us| * p.keyWeight
  {
    SumSizesEqual(p, d, Ops(us), p.keyWeight);
  }

  lemma {:induction false} PlanSizes(p: Params, d: Rbf, h: seq<Gathered>, frozen: seq<Utxo>, rest: seq<Utxo>)
    requires SamePlan(p, d, h, frozen) && NoDup(Ops(RawInputs(h)))
    requires forall i :: 0 <= i < |frozen| ==> frozen[i].op !in d.sigType
    requires forall i :: 0 <= i < |rest| ==> rest[i].op !in d.sigType
    ensures d.segwit + p.keyWeight * |rest| == SumSizes(p, d, Ops(frozen + RawInputs(h) + rest))
  {
    var raw := RawInputs(h);
    OpsConcat(frozen, raw);
    OpsConcat(frozen + raw, rest);
    SumSizesConcat(p, d, Ops(frozen), Ops(raw));
    SumSizesConcat(p, d, Ops(frozen) + Ops(raw), Ops(rest));
    WalletSizes(p, d, frozen);
    WalletSizes(p, d, rest);
    assert h[..|h|] == h;
    RunningSize(p, h, |h|);
    SameMapsSameSizes(p, d, MapsOf(h), Ops(raw));
  }

  lemma {:induction false} WitnessesCounted(p: Params, r: Rbf, hist: seq<Gathered>, frozen: seq<Utxo>, c: Call)
    requires Planned(p, r, hist, frozen) && Succeeds(p, r, c) && NoDup(Ops(Offered(r, c)))
    ensures
      var d := Extend(p, r, c.g);
      d.segwit + p.keyWeight * (|c.tx.ins| - |d.vin|) == SumSizes(p, d, Prevs(c.tx.ins))
  {
    hide Planned, Succeeds, Extend, SignerTable, RawInputs, Offered, Types, Scripts, Secrets, Sequences, WitnessSize,
      Recipients, VSize, SumSizes, NoDup;
    var d, h := Extend(p, r, c.g), hist + c.g;
    DraftMaps(p, r, hist, frozen, c.g);
    OfferedSplits(p, r, hist, frozen, c);
    InputCount(p, r, hist, frozen, c);
    var rest := c.pool[..|c.tx.ins| - |d.vin|];
    forall i | 0 <= i < |frozen| ensures frozen[i].op !in d.sigType {
      assert Ops(frozen)[i] == frozen[i].op;
      PlanCovers(h, frozen[i].op);
    }
    forall i | 0 <= i < |rest| ensures rest[i].op !in d.sigType {
      assert Ops(c.pool)[i] == rest[i].op;
      PlanCovers(h, rest[i].op);
    }
    PlanSizes(p, d, h, frozen, rest);
  }

  /** The size handed to the estimator is the sum over the transaction's inputs, each counted
      once by how it is signed. */
  lemma {:induction false} EstimateCountsEveryInput(p: Params, r: Rbf, hist: seq<Gathered>, frozen: seq<Utxo>, c: Call)
    requires Planned(p, r, hist, frozen) && Succeeds(p, r, c) && NoDup(Ops(Offered(r, c)))
    ensures
      var d := Extend(p, r, c.g);
      && d.segwit + p.keyWeight * (|c.tx.ins| - |d.vin|) == SumSizes(p, d, Prevs(c.tx.ins))
      && VSize(p, d, c.tx) == p.vsize(|c.tx.ins|, c.tx.outs, SumSizes(p, d, Prevs(c.tx.ins)))
  {
    WitnessesCounted(p, r, hist, frozen, c);
    hide Planned, Succeeds, NoDup, Extend, SumSizes;
  }

  lemma {:induction false} SameMapsSameSizes(p: Params, d: Rbf, e: Rbf, ops: seq<OutPoint>)
    requires d.sigType == e.sigType && d.sigSecret == e.sigSecret
    ensures SumSizes(p, d, ops) == SumSizes(p, e, ops)
  {
    if ops == [] {
    } else {
      SameMapsSameSizes(p, d, e, DropLast(ops));
    }
  }
}
