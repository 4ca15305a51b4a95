/** The filler commits to an order only when its wallet covers all orders it has filled and not
    yet executed; and so, over every run, what it owes stays covered. */
module Solvency {
  import opened Bitcoin
  import opened Orders
  import opened Pricing

  const MIN_GAS := 1_0000_0000_0000_0000

  /** The follower's leg of an order the filler has filled; the amount is absent when its text
      does not parse. */
  datatype Debt = Debt(chain: Chain, asset: string, status: SwapStatus, amount: Option<int>)

  predicate Counts(d: Debt, chain: Chain, asset: string) {
    d.chain == chain && d.asset == asset && d.status == NotStarted
  }

  /** What is still to be paid; absent when an amount does not parse. */
  function Unexecuted(book: seq<Debt>, chain: Chain, asset: string): Option<int> {
    if book == [] then Some(0)
    else match Unexecuted(DropLast(book), chain, asset)
      case None => None
      case Some(n) =>
        if !Counts(Last(book), chain, asset) then Some(n)
        else if Last(book).amount == None then None
        else Some(n + Last(book).amount.value)
  }

  lemma {:induction false} UnexecutedPrefix(book: seq<Debt>, chain: Chain, asset: string, i: nat)
    requires i <= |book| && Unexecuted(book[..i], chain, asset) == None
    ensures Unexecuted(book, chain, asset) == None
    decreases |book| - i
  {
    if i < |book| {
      assert DropLast(book[..i + 1]) == book[..i];
      UnexecutedPrefix(book, chain, asset, i + 1);
    } else {
      assert book[..i] == book;
    }
  }

  /** What is owed is a sum over the orders: nothing for an empty book, the amount of a single order that
      counts, and the sum of two parts of a book. */
  lemma {:induction false} UnexecutedIsSum(a: seq<Debt>, b: seq<Debt>, chain: Chain, asset: string)
    requires Unexecuted(a, chain, asset).Some? && Unexecuted(b, chain, asset).Some?
    ensures Unexecuted(a + b, chain, asset)
         == Some(Unexecuted(a, chain, asset).value + Unexecuted(b, chain, asset).value)
    ensures b == [] ==> Unexecuted(b, chain, asset) == Some(0)
    ensures |b| == 1 ==>
              Unexecuted(b, chain, asset)
              == if b[0].chain == chain && b[0].asset == asset && b[0].status == NotStarted then b[0].amount
                 else Some(0)
  {
    if b == [] {
      assert a + b == a;
    } else {
      assert DropLast(a + b) == a + DropLast(b);
      UnexecutedIsSum(a, DropLast(b), chain, asset);
    }
  }

  method UnexecutedAmount(book: seq<Debt>, chain: Chain, asset: string) returns (amount: Option<int>)
    ensures amount == Unexecuted(book, chain, asset)
  {
    var sum := 0;
    for i := 0 to |book|
      invariant Unexecuted(book[..i], chain, asset) == Some(sum)
    {
      assert DropLast(book[..i + 1]) == book[..i];
      if book[i].chain == chain && book[i].asset == asset && book[i].status == NotStarted {
        if book[i].amount == None {
          UnexecutedPrefix(book, chain, asset, i + 1);
          return None;
        }
        sum := sum + book[i].amount.value;
      }
    }
    assert book[..|book|] == book;
    return Some(sum);
  }

  /** What the network answers during one check; absent means an error. */
  datatype Answers = Answers(gas: Option<int>, balance: Option<int>, book: Option<seq<Debt>>)

  /** Listing an undecodable amount yields no sum and no error, and using the sum then crashes. */
  datatype Check = Pass | Refuse | Crash

  /** The amount the wallet must hold on a chain; 64 bits wide on Bitcoin. */
  function Required(to: Chain, unexecuted: int, amount: int): int {
    if to == BitcoinChain then Int64(Int64(unexecuted) + Int64(amount)) else unexecuted + amount
  }

  /** Bitcoin needs at least the required amount, a token balance more than it. */
  predicate Covers(to: Chain, balance: int, required: int) {
    if to == BitcoinChain then balance >= required else balance > required
  }

  /** Every question was answered, and there is gas on the chain the filler receives on. */
  predicate Answered(from: Chain, amount: Option<int>, a: Answers) {
    && amount.Some? && a.balance.Some? && a.book.Some?
    && (from == BitcoinChain || (a.gas.Some? && a.gas.value > MIN_GAS))
  }

  /** The balance covers the order together with everything still to be paid. */
  predicate CheckPasses(from: Chain, to: Chain, asset: string, amount: Option<int>, a: Answers) {
    && Answered(from, amount, a) && Unexecuted(a.book.value, to, asset).Some?
    && Covers(to, a.balance.value, Required(to, Unexecuted(a.book.value, to, asset).value, amount.value))
  }

  function CheckOf(from: Chain, to: Chain, asset: string, amount: Option<int>, a: Answers): Check {
    if !Answered(from, amount, a) then Refuse
    else if Unexecuted(a.book.value, to, asset) == None then Crash
    else if CheckPasses(from, to, asset, amount, a) then Pass
    else Refuse
  }

  /** The check passes exactly when the amount is a number, everything asked is answered, there is more
      than the minimum of gas where the filler receives on an EVM chain, and the balance covers the order
      with all that is still to be paid. */
  lemma {:induction false} PassesExactly(from: Chain, to: Chain, asset: string, amount: Option<int>, a: Answers)
    ensures CheckOf(from, to, asset, amount, a) == Pass
       <==> && amount.Some? && a.balance.Some? && a.book.Some?
            && (from.EvmChain? ==> a.gas.Some? && a.gas.value > 1_0000_0000_0000_0000)
            && var owed := Unexecuted(a.book.value, to, asset);
               owed.Some? && if to.EvmChain? then a.balance.value > owed.value + amount.value
                             else a.balance.value >= Int64(Int64(owed.value) + Int64(amount.value))
    ensures CheckOf(from, to, asset, amount, a) == Crash
       <==> && amount.Some? && a.balance.Some? && a.book.Some?
            && (from.EvmChain? ==> a.gas.Some? && a.gas.value > 1_0000_0000_0000_0000)
            && exists d :: d in a.book.value && d.chain == to && d.asset == asset && d.status == NotStarted
                           && d.amount == None
  {
    if a.book.Some? {
      UnreadableExactly(a.book.value, to, asset);
    }
  }

  lemma {:induction false} UnreadableExactly(book: seq<Debt>, chain: Chain, asset: string)
    ensures Unexecuted(book, chain, asset) == None
       <==> exists d :: d in book && d.chain == chain && d.asset == asset && d.status == NotStarted && d.amount == None
  {
    if book == [] {
    } else {
      UnreadableExactly(DropLast(book), chain, asset);
      assert forall d :: d in book <==> d in DropLast(book) || d == Last(book);
    }
  }

  method BalanceCheck(from: Chain, to: Chain, asset: string, amount: Option<int>, a: Answers) returns (c: Check)
    ensures c == CheckOf(from, to, asset, amount, a)
  {
    if amount == None {
      return Refuse;
    }
    if from != BitcoinChain {
      if a.gas == None {
        return Refuse;
      }
      if a.gas.value <= MIN_GAS {
        return Refuse;
      }
    }
    if a.balance == None || a.book == None {
      return Refuse;
    }
    var unexecuted := UnexecutedAmount(a.book.value, to, asset);
    if unexecuted == None {
      return Crash;
    }
    if to == BitcoinChain {
      if a.balance.value < Int64(Int64(unexecuted.value) + Int64(amount.value)) {
        return Refuse;
      }
    } else {
      var required := unexecuted.value + amount.value;
      if a.balance.value <= required {
        return Refuse;
      }
    }
    return Pass;
  }

  /** How the orderbook answers a request to fill. */
  datatype FillAnswer = Accepted | AlreadyFilled | FillFailed

  datatype Tick = Tick(answers: Answers, fill: FillAnswer)

  datatype Outcome = FilledAt(tick: nat) | TakenByOther(tick: nat) | Waiting | Crashed(tick: nat)

  /** How a tick ends the attempts, if it does. */
  function TickEnds(from: Chain, to: Chain, asset: string, amount: Option<int>, t: Tick, i: nat): Outcome {
    match CheckOf(from, to, asset, amount, t.answers)
    case Refuse => Waiting
    case Crash => Crashed(i)
    case Pass =>
      match t.fill
      case Accepted => FilledAt(i)
      case AlreadyFilled => TakenByOther(i)
      case FillFailed => Waiting
  }

  /** A tick fills the order exactly when its check passes and the orderbook accepts; it ends the attempts
      otherwise exactly when someone else has filled the order or the check crashes. */
  lemma {:induction false} TickExactly(from: Chain, to: Chain, asset: string, amount: Option<int>, t: Tick, i: nat)
    ensures
      var c, end := CheckOf(from, to, asset, amount, t.answers), TickEnds(from, to, asset, amount, t, i);
      && (end == FilledAt(i) <==> c == Pass && t.fill == Accepted)
      && (end == TakenByOther(i) <==> c == Pass && t.fill == AlreadyFilled)
      && (end == Crashed(i) <==> c == Crash)
      && (end == Waiting <==> c == Refuse || (c == Pass && t.fill == FillFailed))
  {
  }

  /** Tries the order until a tick ends the attempts. */
  method FillOrder(from: Chain, to: Chain, asset: string, amount: Option<int>,
                   ticks: seq<Tick>) returns (outcome: Outcome)
    ensures outcome == Waiting <==>
              forall k :: 0 <= k < |ticks| ==> TickEnds(from, to, asset, amount, ticks[k], k) == Waiting
    ensures outcome != Waiting ==>
              && outcome.tick < |ticks|
                && outcome == TickEnds(from, to, asset, amount, ticks[outcome.tick], outcome.tick)
              && forall k :: 0 <= k < outcome.tick ==> TickEnds(from, to, asset, amount, ticks[k], k) == Waiting
    ensures outcome.FilledAt? ==> CheckPasses(from, to, asset, amount, ticks[outcome.tick].answers)
  {
    for i := 0 to |ticks|
      invariant forall k :: 0 <= k < i ==> TickEnds(from, to, asset, amount, ticks[k], k) == Waiting
    {
      var c := BalanceCheck(from, to, asset, amount, ticks[i].answers);
      if c == Refuse {
        continue;
      }
      if c == Crash {
        return Crashed(i);
      }
      match ticks[i].fill {
        case Accepted => return FilledAt(i);
        case AlreadyFilled => return TakenByOther(i);
        case FillFailed =>
      }
    }
    return Waiting;
  }

  // ------------------------------------------------ the check is about real funds

  /** With amounts that fit 64 bits, the Bitcoin check lets an uncovered order through exactly when
      the sum does not fit. */
  lemma {:induction false} UncoveredExactly(balance: int, unexecuted: int, amount: int)
    requires 0 <= balance && FitsInt64(balance)
    requires 0 <= unexecuted && FitsInt64(unexecuted) && 0 <= amount && FitsInt64(amount)
    ensures Covers(BitcoinChain, balance, Required(BitcoinChain, unexecuted, amount)) && balance < unexecuted + amount
       <==> !FitsInt64(unexecuted + amount)
  {
    Int64Is(unexecuted);
    Int64Is(amount);
    Int64Is(unexecuted + amount);
  }

  // ------------------------------------------------ runs

  /** The filler's wallet for one asset, the network fees paid from it, and the orders it filled. */
  datatype Account = Account(balance: int, fees: nat, book: seq<Debt>)

  datatype Event =
    | Fill(debt: Debt)                       // checked and filled in one step
    | Elsewhere(other: Debt)                 // filled for another chain or asset
    | Execute(k: nat, fee: nat, status: SwapStatus)
    | Progress(j: nat, later: SwapStatus)
    | Deposit(amount: nat)

  ghost predicate Step(to: Chain, asset: string, s: Account, e: Event, s': Account) {
    match e
    case Fill(d) =>
      && Counts(d, to, asset) && d.amount.Some? && Unexecuted(s.book, to, asset).Some?
      && Covers(to, s.balance, Required(to, Unexecuted(s.book, to, asset).value, d.amount.value))
      && s' == s.(book := s.book + [d])
    case Elsewhere(d) =>
      !(d.chain == to && d.asset == asset) && s' == s.(book := s.book + [d])
    case Execute(k, fee, status) =>
      && k < |s.book| && Counts(s.book[k], to, asset) && s.book[k].amount.Some? && status != NotStarted
      && s' == Account(s.balance - s.book[k].amount.value - fee, s.fees + fee,
        s.book[k := s.book[k].(status := status)])
    case Progress(j, later) =>
      && j < |s.book| && !Counts(s.book[j], to, asset) && later != NotStarted
      && s' == s.(book := s.book[j := s.book[j].(status := later)])
    case Deposit(amount) => s' == s.(balance := s.balance + amount)
  }

  /** An order filled on true answers, those of the account at that moment, is a fill of the run. */
  lemma {:induction false} FilledIsFill(from: Chain, to: Chain, asset: string, amount: Option<int>, s: Account,
                                        t: Tick, k: nat)
    requires TickEnds(from, to, asset, amount, t, k) == FilledAt(k)
    requires t.answers.balance == Some(s.balance) && t.answers.book == Some(s.book)
    ensures
      var d := Debt(to, asset, NotStarted, amount);
      Step(to, asset, s, Fill(d), s.(book := s.book + [d]))
  {
    hide Unexecuted, Covers, Required;
  }

  /** On Bitcoin the sums must fit 64 bits. */
  ghost predicate Fits(to: Chain, asset: string, s: Account, e: Event) {
    to == BitcoinChain && e.Fill? && e.debt.amount.Some? && Unexecuted(s.book, to, asset).Some? ==>
      var u, a := Unexecuted(s.book, to, asset).value, e.debt.amount.value;
      FitsInt64(u) && FitsInt64(a) && FitsInt64(u + a)
  }

  ghost predicate Run(to: Chain, asset: string, states: seq<Account>, events: seq<Event>) {
    if events == [] then |states| == 1
    else
      && |states| == |events| + 1
      && Run(to, asset, DropLast(states), DropLast(events))
      && Step(to, asset, states[|states| - 2], Last(events), Last(states))
      && Fits(to, asset, states[|states| - 2], Last(events))
  }

  /** The balance, with the fees paid so far, covers everything still to be paid. */
  ghost predicate Solvent(to: Chain, asset: string, s: Account) {
    Unexecuted(s.book, to, asset).Some? && s.balance + s.fees >= Unexecuted(s.book, to, asset).value
  }

  /** Changing the status of one order changes the sum by what that order counts for. */
  lemma {:induction false} SumAfterChange(book: seq<Debt>, to: Chain, asset: string, k: nat, status: SwapStatus)
    requires k < |book| && status != NotStarted && Unexecuted(book, to, asset).Some?
    requires Counts(book[k], to, asset) ==> book[k].amount.Some?
    ensures Unexecuted(book[k := book[k].(status := status)], to, asset)
         == Some(Unexecuted(book, to, asset).value - if Counts(book[k], to, asset) then book[k].amount.value else 0)
  {
    var changed := book[k := book[k].(status := status)];
    if k < |book| - 1 {
      assert DropLast(changed) == DropLast(book)[k := book[k].(status := status)];
      SumAfterChange(DropLast(book), to, asset, k, status);
    } else {
      assert DropLast(changed) == DropLast(book);
    }
  }

  lemma {:induction false} SumAfterFill(book: seq<Debt>, to: Chain, asset: string, d: Debt)
    requires Unexecuted(book, to, asset).Some? && (Counts(d, to, asset) ==> d.amount.Some?)
    ensures Unexecuted(book + [d], to, asset)
         == Some(Unexecuted(book, to, asset).value + if Counts(d, to, asset) then d.amount.value else 0)
  {
    assert DropLast(book + [d]) == book && Last(book + [d]) == d;
  }

  /** A balance that covers an order pays for it and for everything before it. */
  lemma {:induction false} CoveredIsFunded(to: Chain, balance: int, unexecuted: int, amount: int)
    requires Covers(to, balance, Required(to, unexecuted, amount))
    requires to == BitcoinChain ==> FitsInt64(unexecuted) && FitsInt64(amount) && FitsInt64(unexecuted + amount)
    ensures balance >= unexecuted + amount
  {
    Int64Is(unexecuted);
    Int64Is(amount);
    Int64Is(unexecuted + amount);
  }

  lemma {:induction false} StepKeepsSolvent(to: Chain, asset: string, s: Account, e: Event, s': Account)
    requires Solvent(to, asset, s) && Step(to, asset, s, e, s') && Fits(to, asset, s, e)
    ensures Solvent(to, asset, s')
  {
    hide Unexecuted, Covers, Required, FitsInt64;
    match e
    case Fill(d) =>
      SumAfterFill(s.book, to, asset, d);
      CoveredIsFunded(to, s.balance, Unexecuted(s.book, to, asset).value, d.amount.value);
    case Elsewhere(d) => SumAfterFill(s.book, to, asset, d);
    case Execute(k, _, status) => SumAfterChange(s.book, to, asset, k, status);
    case Progress(j, later) => SumAfterChange(s.book, to, asset, j, later);
    case Deposit(_) =>
  }

  /** Through any interleaving of fills, executions and deposits the filler stays solvent. */
  lemma {:induction false} StaysSolvent(to: Chain, asset: string, states: seq<Account>, events: seq<Event>)
    requires Run(to, asset, states, events) && Solvent(to, asset, states[0])
    ensures Solvent(to, asset, Last(states))
  {
    if events == [] {
    } else {
      hide Step, Fits, Solvent;
      StaysSolvent(to, asset, DropLast(states), DropLast(events));
      StepKeepsSolvent(to, asset, states[|states| - 2], Last(events), Last(states));
    }
  }
}
