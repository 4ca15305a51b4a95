/** The replacement options as the wallet holds them: a record, copied whole when it is passed on,
    of slices and maps, which are not copied with it. */
module RbfOptions {
  import opened Bitcoin
  import opened RbfPlan

  /** A window of an array that others may share; a nil slice has no array. */
  datatype RawSlice<!T> = RawSlice(mem: array?<T>, off: nat, len: nat) {
    predicate Ok() { if mem == null then off == 0 && len == 0 else off + len <= mem.Length }
  }

  type Slice<!T> = s: RawSlice<T> | s.Ok() witness RawSlice(null, 0, 0)

  /** A map that others may share; writing needs one that is not nil. */
  class Table<V> {
    var m: map<OutPoint, V>

    constructor (m: map<OutPoint, V>)
      ensures this.m == m
    {
      this.m := m;
    }

    method Set(op: OutPoint, v: V)
      modifies this
      ensures m == old(m)[op := v]
    {
      m := m[op := v];
    }
  }

  ghost function Obj(o: object?): set<object> { if o == null then {} else {o} }

  function Elems<T>(s: Slice<T>): (e: seq<T>)
    reads s.mem
    ensures |e| == s.len
  {
    if s.mem == null then [] else s.mem[s.off..s.off + s.len]
  }

  function Entries<V>(t: Table?<V>): map<OutPoint, V>
    reads t
  {
    if t == null then map[] else t.m
  }

  /** The slice without its first n elements, over the same array. */
  function Rest<T>(s: Slice<T>, n: nat): Slice<T>
    requires n <= s.len
  {
    if s.mem == null then s else RawSlice(s.mem, s.off + n, s.len - n)
  }

  datatype OptionRBF = OptionRBF(
    vin: Slice<Utxo>, baseSize: int, segwitSize: int,
    recipients: Slice<TxOut>,
    feeRate: int, fee: int,
    sigType: Table?<SigType>,
    sigScript: Table?<Script>,
    sigSecret: Table?<Bytes>,
    sigSequence: Table?<int>,
    firstInputs: Slice<Utxo>,
    firstUtxos: Slice<Utxo>)
  {
    /** All memory reachable from the record. */
    ghost function Repr(): set<object> {
      Obj(vin.mem) + Obj(recipients.mem) + Obj(firstInputs.mem) + Obj(firstUtxos.mem)
      + Obj(sigType) + Obj(sigScript) + Obj(sigSecret) + Obj(sigSequence)
    }

    function View(): Rbf
      reads Repr()
    {
      Rbf(Elems(vin), baseSize, segwitSize, Elems(recipients), feeRate, fee,
          Entries(sigType), Entries(sigScript), Entries(sigSecret), Entries(sigSequence),
          Elems(firstInputs), Elems(firstUtxos))
    }

    /** Nothing is nil, and appending to the raw inputs disturbs no other slice. */
    ghost predicate Writable() {
      && sigType != null && sigScript != null && sigSecret != null && sigSequence != null
      && vin.mem != null && recipients.mem != null
      && vin.mem != firstInputs.mem && vin.mem != firstUtxos.mem
    }
  }

  /** What recording a transaction does to the memory of the options: the raw inputs and the first
      inputs may move to new memory, and the wallet outputs may become the list that was offered. */
  twostate predicate Recorded(new out: OptionRBF, r: OptionRBF, utxos: Slice<Utxo>, isNil: bool) {
    && out.recipients == r.recipients && out.sigType == r.sigType && out.sigScript == r.sigScript
    && out.sigSecret == r.sigSecret && out.sigSequence == r.sigSequence
    && (out.vin.mem == r.vin.mem || fresh(Obj(out.vin.mem)))
    && (out.firstInputs.mem == r.firstInputs.mem || fresh(Obj(out.firstInputs.mem)))
    && out.firstUtxos.mem == if isNil || r.vin.len == 0 then utxos.mem else r.firstUtxos.mem
  }

  /** Nothing the options reach has changed. */
  twostate predicate Untouched(rbf: OptionRBF)
    reads rbf.Repr()
  {
    unchanged(rbf.Repr())
  }

  twostate predicate Same(o: object?)
    reads if o == null then {} else {o}
  {
    o != null ==> unchanged(o)
  }

  twostate lemma {:induction false} PartsUntouched(rbf: OptionRBF)
    requires Same(rbf.vin.mem) && Same(rbf.recipients.mem) && Same(rbf.firstInputs.mem) && Same(rbf.firstUtxos.mem)
    requires Same(rbf.sigType) && Same(rbf.sigScript) && Same(rbf.sigSecret) && Same(rbf.sigSequence)
    ensures Untouched(rbf)
  {
  }

  /** All memory of the options, leaving the wallet outputs aside, is new. */
  twostate predicate OwnParts(new c: OptionRBF) {
    && fresh(Obj(c.vin.mem)) && fresh(Obj(c.recipients.mem)) && fresh(Obj(c.firstInputs.mem))
    && fresh(Obj(c.sigType)) && fresh(Obj(c.sigScript)) && fresh(Obj(c.sigSecret)) && fresh(Obj(c.sigSequence))
  }

  /** All memory of the options is new. */
  twostate predicate AllNew(new c: OptionRBF) {
    OwnParts(c) && fresh(Obj(c.firstUtxos.mem))
  }

  /** All memory of the new options is new, except that the wallet outputs may be the caller's. */
  twostate predicate OwnsAll(new c: OptionRBF, rbf: OptionRBF, keepsPool: bool) {
    && OwnParts(c)
    && if keepsPool then c.firstUtxos.mem == rbf.firstUtxos.mem && c.firstUtxos.mem != null
       else fresh(Obj(c.firstUtxos.mem))
  }

  /** The parts of the options that are plain values, and the lengths of the others. */
  lemma {:induction false} ViewParts(c: OptionRBF)
    ensures c.View().fee == c.fee && c.View().feeRate == c.feeRate
    ensures |c.View().vin| == c.vin.len && |c.View().firstInputs| == c.firstInputs.len
  {
  }

  /** What a record reaches was there before. */
  twostate lemma {:induction false} ReprIsOld(r: OptionRBF, new mem: object?)
    requires fresh(Obj(mem)) && mem != null
    ensures mem !in r.Repr()
  {
  }

  lemma {:induction false} InRepr(c: OptionRBF)
    ensures Obj(c.vin.mem) <= c.Repr() && Obj(c.recipients.mem) <= c.Repr()
    ensures Obj(c.firstInputs.mem) <= c.Repr() && Obj(c.firstUtxos.mem) <= c.Repr()
    ensures Obj(c.sigType) <= c.Repr() && Obj(c.sigScript) <= c.Repr()
    ensures Obj(c.sigSecret) <= c.Repr() && Obj(c.sigSequence) <= c.Repr()
  {
  }

  // ------------------------------------------------ slices and maps

  /** A new slice with these elements. */
  method MakeSlice<T>(xs: seq<T>) returns (c: Slice<T>)
    ensures c.mem != null && fresh(c.mem) && Elems(c) == xs
  {
    var mem := new T[|xs|](i requires 0 <= i < |xs| => xs[i]);
    c := RawSlice(mem, 0, |xs|);
  }

  method CopySlice<T(0)>(s: Slice<T>) returns (c: Slice<T>)
    ensures c.mem != null && fresh(c.mem) && Elems(c) == Elems(s)
  {
    var mem := new T[s.len];
    for i := 0 to s.len
      invariant forall k :: 0 <= k < i ==> mem[k] == Elems(s)[k]
    {
      mem[i] := s.mem[s.off + i];
    }
    c := RawSlice(mem, 0, s.len);
  }

  method CopyTable<V>(t: Table?<V>) returns (c: Table<V>)
    ensures fresh(c) && c.m == Entries(t)
  {
    c := new Table(map[]);
    var rest := if t == null then {} else t.m.Keys;
    while rest != {}
      modifies c
      invariant rest <= Entries(t).Keys && c.m.Keys == Entries(t).Keys - rest
      invariant forall op :: op in c.m ==> c.m[op] == Entries(t)[op]
      decreases |rest|
    {
      var op :| op in rest;
      c.Set(op, t.m[op]);
      rest := rest - {op};
    }
  }

  /** Appends into the room behind the window. */
  method AppendInPlace<T>(s: Slice<T>, xs: seq<T>) returns (r: Slice<T>)
    requires s.mem != null && s.off + s.len + |xs| <= s.mem.Length
    modifies s.mem
    ensures Elems(r) == old(Elems(s)) + xs && r.mem == s.mem
  {
    var end := s.off + s.len;
    for i := 0 to |xs|
      invariant s.mem[s.off..end] == old(s.mem[s.off..end])
      invariant s.mem[end..end + i] == xs[..i]
    {
      s.mem[end + i] := xs[i];
    }
    r := RawSlice(s.mem, s.off, s.len + |xs|);
  }

  /** Appends in an array of its own, which may have room to spare. */
  method AppendInNew<T(0)>(s: Slice<T>, xs: seq<T>) returns (r: Slice<T>)
    ensures Elems(r) == Elems(s) + xs && r.mem != null && fresh(r.mem)
  {
    var n := s.len + |xs|;
    var room: int := *;
    var mem := new T[if room > 0 then n + room else n];
    for i := 0 to n
      invariant mem[..i] == (Elems(s) + xs)[..i]
    {
      mem[i] := if i < s.len then s.mem[s.off + i] else xs[i - s.len];
    }
    r := RawSlice(mem, 0, n);
  }

  /** Appends in place while the array has room behind the window, and moves to a new array
      otherwise. */
  method Append<T(0)>(s: Slice<T>, xs: seq<T>) returns (r: Slice<T>)
    modifies s.mem
    ensures Elems(r) == old(Elems(s)) + xs
    ensures r.mem == s.mem || (r.mem != null && fresh(r.mem))
  {
    if s.mem != null && s.off + s.len + |xs| <= s.mem.Length {
      r := AppendInPlace(s, xs);
    } else {
      r := AppendInNew(s, xs);
    }
  }

  // ------------------------------------------------ copies

  method CopySlices(opts: OptionRBF)
    returns (vin: Slice<Utxo>, recipients: Slice<TxOut>, firstInputs: Slice<Utxo>, firstUtxos: Slice<Utxo>)
    ensures vin.mem != null && recipients.mem != null && firstInputs.mem != null && firstUtxos.mem != null
    ensures fresh(vin.mem) && fresh(recipients.mem) && fresh(firstInputs.mem) && fresh(firstUtxos.mem)
    ensures vin.mem != firstInputs.mem && vin.mem != firstUtxos.mem
    ensures Elems(vin) == Elems(opts.vin) && Elems(recipients) == Elems(opts.recipients)
    ensures Elems(firstInputs) == Elems(opts.firstInputs) && Elems(firstUtxos) == Elems(opts.firstUtxos)
  {
    vin := CopySlice(opts.vin);
    recipients := CopySlice(opts.recipients);
    firstInputs := CopySlice(opts.firstInputs);
    firstUtxos := CopySlice(opts.firstUtxos);
  }

  method CopyTables(opts: OptionRBF)
    returns (sigType: Table<SigType>, sigScript: Table<Script>, sigSecret: Table<Bytes>, sigSequence: Table<int>)
    ensures fresh(sigType) && fresh(sigScript) && fresh(sigSecret) && fresh(sigSequence)
    ensures sigType.m == Entries(opts.sigType) && sigScript.m == Entries(opts.sigScript)
    ensures sigSecret.m == Entries(opts.sigSecret) && sigSequence.m == Entries(opts.sigSequence)
  {
    sigType := CopyTable(opts.sigType);
    sigScript := CopyTable(opts.sigScript);
    sigSecret := CopyTable(opts.sigSecret);
    sigSequence := CopyTable(opts.sigSequence);
  }

  /** A copy that shares no slice and no map with the original. */
  method CopyRBF(opts: OptionRBF) returns (c: OptionRBF)
    ensures fresh(c.Repr()) && c.Writable() && c.View() == opts.View()
  {
    var vin, recipients, firstInputs, firstUtxos := CopySlices(opts);
    var sigType, sigScript, sigSecret, sigSequence := CopyTables(opts);
    c := OptionRBF(vin, opts.baseSize, opts.segwitSize, recipients, opts.feeRate, opts.fee,
                   sigType, sigScript, sigSecret, sigSequence, firstInputs, firstUtxos);
  }

  method MakeTables(r: Rbf)
    returns (sigType: Table<SigType>, sigScript: Table<Script>, sigSecret: Table<Bytes>, sigSequence: Table<int>)
    ensures fresh(sigType) && fresh(sigScript) && fresh(sigSecret) && fresh(sigSequence)
    ensures sigType.m == r.sigType && sigScript.m == r.sigScript
    ensures sigSecret.m == r.sigSecret && sigSequence.m == r.sigSequence
  {
    sigType := new Table(r.sigType);
    sigScript := new Table(r.sigScript);
    sigSecret := new Table(r.sigSecret);
    sigSequence := new Table(r.sigSequence);
  }

  /** Options read back from the store. */
  method LoadOptions(r: Rbf) returns (c: OptionRBF)
    ensures fresh(c.Repr()) && c.View() == r
  {
    var vin := MakeSlice(r.vin);
    var recipients := MakeSlice(r.recipients);
    var firstInputs := MakeSlice(r.firstInputs);
    var firstUtxos := MakeSlice(r.firstUtxos);
    var sigType, sigScript, sigSecret, sigSequence := MakeTables(r);
    c := OptionRBF(vin, r.baseSize, r.segwit, recipients, r.feeRate, r.fee,
                   sigType, sigScript, sigSecret, sigSequence, firstInputs, firstUtxos);
  }
}
