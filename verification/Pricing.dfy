/** What the order creator asks for and what a filler's strategy accepts, over exact rationals. */
module Pricing {
  import opened Bitcoin

  const BASIS := 10000

  // ------------------------------------------------ the creator's amount

  const HALF := 0x8000_0000_0000_0000

  predicate FitsInt64(n: int) { -HALF <= n < HALF }

  /** Two's complement wrap-around of 64 bits. */
  function Int64(n: int): int { (n + HALF) % (2 * HALF) - HALF }

  /** Division that truncates toward zero. */
  function TruncDiv(a: int, b: int): int
    requires b > 0
  {
    if a >= 0 then a / b else -(-a / b)
  }

  /** The follower amount an order is created with; `fee` in hundredths of a percent. */
  function ReceiveAmount(amount: int, fee: int): int {
    TruncDiv(Int64(Int64(amount) * Int64(BASIS - fee)), BASIS)
  }

  // ------------------------------------------------ the filler's strategy

  datatype Price = Infinite | Finite(value: real)

  /** `fee` is not bounded: at 100 % the price is infinite, above it is negative. */
  function PriceAt(fee: int): Price {
    if fee == BASIS then Infinite else Finite(BASIS as real / (BASIS - fee) as real)
  }

  predicate Below(offered: real, p: Price) { p.Infinite? || offered < p.value }

  datatype Strategy = Strategy(makers: seq<string>, minAmount: Option<int>, maxAmount: Option<int>, fee: int)

  /** An open order; the amount is absent when its text does not parse. */
  datatype Offer = Offer(price: real, maker: string, amount: Option<int>)

  datatype Mismatch = PriceTooLow | MakerNotListed | InvalidAmount | AmountTooLow | AmountTooHigh

  /** Whether the filler takes the order: price first, then the maker, then the amount. */
  method Match(s: Strategy, o: Offer) returns (ok: bool, err: Option<Mismatch>)
    ensures ok <==> err == None
    ensures ok <==> && !Below(o.price, PriceAt(s.fee)) && (s.makers == [] || o.maker in s.makers) && o.amount.Some?
                    && (s.minAmount.Some? ==> s.minAmount.value <= o.amount.value)
                    && (s.maxAmount.Some? ==> o.amount.value <= s.maxAmount.value)
    ensures err == Some(PriceTooLow) <==> Below(o.price, PriceAt(s.fee))
    ensures err == Some(MakerNotListed) <==>
              !Below(o.price, PriceAt(s.fee)) && s.makers != [] && o.maker !in s.makers
    ensures err == Some(InvalidAmount) <==>
              !Below(o.price, PriceAt(s.fee)) && (s.makers == [] || o.maker in s.makers) && o.amount == None
    ensures err == Some(AmountTooLow) <==>
              && !Below(o.price, PriceAt(s.fee)) && (s.makers == [] || o.maker in s.makers) && o.amount.Some?
              && s.minAmount.Some? && o.amount.value < s.minAmount.value
    ensures err == Some(AmountTooHigh) <==>
              && !Below(o.price, PriceAt(s.fee)) && (s.makers == [] || o.maker in s.makers) && o.amount.Some?
              && (s.minAmount.Some? ==> s.minAmount.value <= o.amount.value)
              && s.maxAmount.Some? && o.amount.value > s.maxAmount.value
  {
    if Below(o.price, PriceAt(s.fee)) {
      return false, Some(PriceTooLow);
    }
    if |s.makers| != 0 {
      var hasMaker := false;
      for i := 0 to |s.makers|
        invariant !hasMaker
        invariant o.maker !in s.makers[..i]
      {
        if s.makers[i] == o.maker {
          hasMaker := true;
          break;
        }
      }
      if !hasMaker {
        return false, Some(MakerNotListed);
      }
    }
    if o.amount == None {
      return false, Some(InvalidAmount);
    }
    var amount := o.amount.value;
    if s.minAmount.Some? && amount < s.minAmount.value {
      return false, Some(AmountTooLow);
    }
    if s.maxAmount.Some? && amount > s.maxAmount.value {
      return false, Some(AmountTooHigh);
    }
    return true, None;
  }

  // ------------------------------------------------ the price test in whole numbers

  lemma {:induction false} CrossMultiply(a: real, b: real, c: real, d: real)
    requires b > 0.0 && d > 0.0
    ensures a / b < c / d <==> a * d < c * b
  {
    var x, y := a / b, c / d;
    assert a == x * b && c == y * d;
    assert a * d == x * (b * d) && c * b == y * (b * d);
    var m := b * d;
    assert m > 0.0;
    ScaleLess(x, y, m);
  }

  lemma {:induction false} ScaleLess(x: real, y: real, m: real)
    requires m > 0.0
    ensures x < y <==> x * m < y * m
  {
    if x < y {
      assert (y - x) * m > 0.0;
    } else {
      assert (x - y) * m >= 0.0;
    }
  }

  predicate PriceAccepts(fee: int, initiator: int, follower: int)
    requires follower > 0
  {
    !Below(initiator as real / follower as real, PriceAt(fee))
  }

  /** The price test in whole numbers, for every fee: below 100 % it is a cross multiplication, at
      100 % nothing passes, above 100 % the negative price lets every order through. */
  lemma {:induction false} PriceTest(fee: int, initiator: int, follower: int)
    requires follower > 0 && initiator >= 0
    ensures fee < BASIS ==> (PriceAccepts(fee, initiator, follower) <==> initiator * (BASIS - fee) >= BASIS * follower)
    ensures fee == BASIS ==> !PriceAccepts(fee, initiator, follower)
    ensures fee > BASIS ==> PriceAccepts(fee, initiator, follower)
  {
    var i, f, b, d := initiator as real, follower as real, BASIS as real, (BASIS - fee) as real;
    if fee < BASIS {
      CrossMultiply(i, f, b, d);
      WholeProducts(initiator, BASIS - fee, BASIS, follower);
    } else if fee > BASIS {
      assert i / f >= 0.0;
      NegativePrice(b, d);
    }
  }

  lemma {:induction false} WholeProducts(a: int, b: int, c: int, d: int)
    ensures (a as real) * (b as real) == (a * b) as real && (c as real) * (d as real) == (c * d) as real
  {
  }

  lemma {:induction false} NegativePrice(b: real, d: real)
    requires b > 0.0 && d < 0.0
    ensures b / d < 0.0
  {
    var x := b / d;
    assert x * d == b;
    NotBothSigns(x, d);
  }

  lemma {:induction false} NotBothSigns(x: real, d: real)
    requires d < 0.0
    ensures x >= 0.0 ==> x * d <= 0.0
  {
    if x > 0.0 {
      ScaleLess(d, 0.0, x);
    }
  }

  // ------------------------------------------------ the two sides together

  lemma {:induction false} TruncDivBounds(a: int, b: int)
    requires b > 0
    ensures a >= 0 ==> TruncDiv(a, b) * b <= a < (TruncDiv(a, b) + 1) * b
    ensures a <= 0 ==> (TruncDiv(a, b) - 1) * b < a <= TruncDiv(a, b) * b
  {
    if a < 0 {
      assert -a == -a / b * b + -a % b;
    }
  }

  lemma {:induction false} Int64Is(n: int)
    ensures FitsInt64(n) <==> Int64(n) == n
    ensures FitsInt64(Int64(n)) && exists k :: Int64(n) == n + k * (2 * HALF)
  {
    assert Int64(n) == n + -((n + HALF) / (2 * HALF)) * (2 * HALF);
  }

  /** The created amount is the rounded-down share exactly when the product fits 64 bits. */
  lemma {:induction false} AmountExactly(amount: int, fee: int)
    requires FitsInt64(amount) && FitsInt64(BASIS - fee)
    ensures ReceiveAmount(amount, fee) == TruncDiv(amount * (BASIS - fee), BASIS) <==> FitsInt64(amount * (BASIS - fee))
  {
    var product := amount * (BASIS - fee);
    Int64Is(amount);
    Int64Is(BASIS - fee);
    Int64Is(product);
    assert ReceiveAmount(amount, fee) == TruncDiv(Int64(product), BASIS);
    if !FitsInt64(product) {
      var k :| Int64(product) == product + k * (2 * HALF);
      FarApart(product, Int64(product), k);
    }
  }

  lemma {:induction false} FarApart(a: int, b: int, k: int)
    requires b == a + k * (2 * HALF) && a != b
    ensures TruncDiv(a, BASIS) != TruncDiv(b, BASIS)
  {
    TruncDivBounds(a, BASIS);
    TruncDivBounds(b, BASIS);
    assert k >= 1 || k <= -1;
  }

  /** The amounts for which the creator's 64-bit arithmetic is exact and asks for something. */
  predicate Creatable(amount: int, f: int) {
    && 0 <= amount && FitsInt64(amount) && FitsInt64(amount * (BASIS - f))
    && ReceiveAmount(amount, f) > 0
  }

  /** An order created at fee `f` passes every filler at a fee that is not higher. */
  lemma {:induction false} CreatedPasses(f: int, g: int, amount: int)
    requires g <= f && FitsInt64(BASIS - f) && Creatable(amount, f)
    ensures PriceAccepts(g, amount, ReceiveAmount(amount, f))
  {
    AmountExactly(amount, f);
    var product := amount * (BASIS - f);
    TruncDivBounds(product, BASIS);
    assert product > 0;
    PositiveShare(amount, f);
    MoreShare(amount, BASIS - f, BASIS - g);
    PriceTest(g, amount, ReceiveAmount(amount, f));
  }

  lemma {:induction false} PositiveShare(amount: int, f: int)
    requires amount >= 0 && amount * (BASIS - f) > 0
    ensures f < BASIS
  {
    if f >= BASIS {
      MoreShare(amount, BASIS - f, 0);
    }
  }

  lemma {:induction false} MoreShare(amount: int, a: int, b: int)
    requires amount >= 0 && a <= b
    ensures amount * a <= amount * b
  {
    assert amount * (b - a) >= 0;
  }

  /** Every amount created at fee `f` passes a filler at fee `g` exactly when `g` is at most `f`. */
  lemma {:induction false} CompatibleExactly(f: int, g: int)
    requires f < BASIS && g < BASIS && FitsInt64(BASIS * (BASIS - f))
    ensures g <= f <==>
      forall amount :: Creatable(amount, f) ==> PriceAccepts(g, amount, ReceiveAmount(amount, f))
  {
    if g <= f {
      forall amount | Creatable(amount, f)
        ensures PriceAccepts(g, amount, ReceiveAmount(amount, f))
      {
        CreatedPasses(f, g, amount);
      }
    } else {
      AmountExactly(BASIS, f);
      assert ReceiveAmount(BASIS, f) == BASIS - f;
      PriceTest(g, BASIS, BASIS - f);
      assert Creatable(BASIS, f);
    }
  }
}
