/** The two executors over the swap lifecycle: one decision, split by the chain of the leg it is
    about; and the retry queue of an EVM chain. */
module Dispatch {
  import opened Bitcoin
  import opened RbfPlan
  import opened Orders

  /** An order as listed by the orderbook. */
  datatype Listed = Listed(filled: bool, taker: string, order: Order)

  datatype EvmItem = EvmItem(action: Action, leg: Leg)

  /** The next step of the follower in the lifecycle, and the leg it is about. */
  function Decision(o: Order): Option<(Action, Leg)> {
    if o.follower.status == Expired then Some((Refund, o.follower))
    else if o.initiator.status != Initiated then None
    else match o.follower.status
      case NotStarted => Some((Initiate, o.follower))
      case RedeemDetected | Redeemed => Some((Redeem, o.initiator))
      case _ => None
  }

  /** The part of a decision that concerns one chain. */
  function OnChain(d: Option<(Action, Leg)>, chain: Chain): Option<(Action, Leg)> {
    if d.Some? && d.value.1.chain == chain then d else None
  }

  predicate IsRedeem(d: Option<(Action, Leg)>) {
    d.Some? && d.value.0 == Redeem
  }

  /** The order makes no progress until its secret is known. */
  predicate LacksSecret(signer: string, l: Listed) {
    l.filled && l.taker == signer && IsRedeem(Decision(l.order)) && l.order.follower.secret == NoSecret
  }

  /** What the EVM executor queues for an order. */
  function EvmPick(chains: set<Chain>, signer: string, l: Listed): Option<EvmItem> {
    var d := Decision(l.order);
    if !l.filled || l.taker != signer || d == None || LacksSecret(signer, l) || d.value.1.chain !in chains then None
    else if IsRedeem(d) then Some(EvmItem(Redeem, d.value.1.(secret := l.order.follower.secret)))
    else Some(EvmItem(d.value.0, d.value.1))
  }

  // ------------------------------------------------ the EVM executor

  /** What the chain answers while one item is worked on. */
  datatype Answer = Answer(initiated: Option<bool>, expired: Option<bool>, accepted: bool)

  /** What becomes of an item; what is sent to redeem carries the secret. */
  datatype Fate = Sent(secret: Bytes) | Skipped | Dropped | Retried

  function FateOf(item: EvmItem, a: Answer): Fate {
    if item.leg.swap == None then Dropped
    else match item.action
      case Initiate =>
        if a.initiated == Some(true) then Skipped
        else if a.initiated == Some(false) && a.accepted then Sent([])
        else Retried
      case Redeem =>
        if DecodeSecret(item.leg.secret) == None then Dropped
        else if a.accepted then Sent(DecodeSecret(item.leg.secret).value)
        else Retried
      case Refund => if a.expired == Some(true) && a.accepted then Sent([]) else Retried
      case OtherAction(_) => Skipped
  }

  /** One chain's channel, the items that wait to be tried again, and what became of the others. */
  datatype Work = Work(queue: seq<EvmItem>, waiting: seq<EvmItem>, sent: seq<EvmItem>, gone: seq<EvmItem>)

  /** What can happen to a chain's work: an item arrives, the k-th waiting item wakes up and is put
      back, or the worker takes the head of the channel. */
  datatype Happening = Arrives(item: EvmItem) | Wakes(k: nat) | Works(answer: Answer)

  function Tally(w: Work, item: EvmItem, fate: Fate): Work {
    match fate
    case Sent(_) => w.(sent := w.sent + [item])
    case Retried => w.(waiting := w.waiting + [item])
    case _ => w.(gone := w.gone + [item])
  }

  function Next(w: Work, h: Happening): Work {
    match h
    case Arrives(item) => w.(queue := w.queue + [item])
    case Wakes(k) =>
      if k < |w.waiting| then
        w.(queue := w.queue + [w.waiting[k]], waiting := w.waiting[..k] + w.waiting[k + 1..])
      else w
    case Works(a) =>
      if w.queue == [] then w else Tally(w.(queue := w.queue[1..]), w.queue[0], FateOf(w.queue[0], a))
  }

  function Worked(w: Work, hs: seq<Happening>): Work {
    if hs == [] then w else Next(Worked(w, DropLast(hs)), Last(hs))
  }

  class EvmExecutor {
    const signer: string
    var swaps: map<Chain, seq<EvmItem>>
    var waiting: map<Chain, seq<EvmItem>>            // items of sleeping goroutines

    constructor (signer: string, chains: set<Chain>)
      ensures this.signer == signer && swaps == (map c | c in chains :: []) && waiting == swaps
    {
      this.signer, swaps, waiting := signer, map c | c in chains :: [], map c | c in chains :: [];
    }

    method Enqueue(action: Action, leg: Leg)
      modifies this`swaps
      ensures swaps == if leg.chain in old(swaps)
                       then old(swaps)[leg.chain := old(swaps)[leg.chain] + [EvmItem(action, leg)]] else old(swaps)
    {
      if leg.chain !in swaps {
        return;
      }
      swaps := swaps[leg.chain := swaps[leg.chain] + [EvmItem(action, leg)]];
    }

    /** Queues the order's next step on the chain of its leg, and touches no other queue. */
    method ProcessOrder(l: Listed) returns (missingSecret: bool)
      modifies this`swaps
      ensures missingSecret <==>
                && l.filled && l.taker == signer && l.order.follower.secret == NoSecret
                && l.order.initiator.status == Initiated && l.order.follower.status in {Redeemed, RedeemDetected}
      ensures swaps == match EvmPick(old(swaps.Keys), signer, l)
                       case None => old(swaps)
                       case Some(item) => old(swaps)[item.leg.chain := old(swaps)[item.leg.chain] + [item]]
    {
      if l.filled {
        var i, f := l.order.initiator, l.order.follower;
        if l.taker == signer {
          if i.status == Initiated && f.status == NotStarted {
            Enqueue(Initiate, f);
          } else if i.status == Initiated && (f.status == Redeemed || f.status == RedeemDetected) {
            if f.secret == NoSecret {
              return true;
            }
            i := i.(secret := f.secret);
            Enqueue(Redeem, i);
          } else if f.status == Expired {
            Enqueue(Refund, f);
          }
        }
      }
      return false;
    }

    /** Works on the head item; says what became of it. */
    method WorkItem(item: EvmItem, a: Answer) returns (fate: Fate)
      ensures fate == FateOf(item, a)
    {
      if item.leg.swap == None {
        return Dropped;
      }
      var secret: Bytes := [];
      match item.action {
        case Initiate =>
          if a.initiated == None {
            return Retried;
          }
          if a.initiated.value {
            return Skipped;
          }
        case Redeem =>
          var decoded := DecodeSecret(item.leg.secret);
          if decoded == None {
            return Dropped;
          }
          secret := decoded.value;
        case Refund =>
          if a.expired == None {
            return Retried;
          }
          if !a.expired.value {
            return Retried;
          }
        case OtherAction(_) =>
          return Skipped;
      }
      if !a.accepted {
        return Retried;
      }
      return Sent(secret);
    }

    /** One thing happens to a chain's work. */
    method Happen(w: Work, h: Happening) returns (w': Work)
      ensures w' == Next(w, h)
    {
      w' := w;
      match h {
        case Arrives(item) =>
          w' := w.(queue := w.queue + [item]);
        case Wakes(k) =>
          if k < |w.waiting| {
            w' := w.(queue := w.queue + [w.waiting[k]], waiting := w.waiting[..k] + w.waiting[k + 1..]);
          }
        case Works(answer) =>
          if w.queue != [] {
            var item := w.queue[0];
            w' := w.(queue := w.queue[1..]);
            var fate := WorkItem(item, answer);
            match fate {
              case Sent(_) => w' := w'.(sent := w.sent + [item]);
              case Retried => w' := w'.(waiting := w.waiting + [item]);
              case _ => w' := w'.(gone := w.gone + [item]);
            }
          }
      }
    }

    /** The worker of one chain, among whatever happens to the chain meanwhile. */
    method ChainWorker(chain: Chain, happenings: seq<Happening>) returns (sent: seq<EvmItem>, gone: seq<EvmItem>)
      requires chain in swaps && chain in waiting
      modifies this`swaps, this`waiting
      ensures swaps.Keys == old(swaps).Keys && waiting.Keys == old(waiting).Keys
      ensures Work(swaps[chain], waiting[chain], sent, gone)
           == Worked(Work(old(swaps)[chain], old(waiting)[chain], [], []), happenings)
      ensures forall c :: c in swaps && c != chain ==> swaps[c] == old(swaps)[c]
      ensures forall c :: c in waiting && c != chain ==> waiting[c] == old(waiting)[c]
    {
      hide Next;
      var w := Work(swaps[chain], waiting[chain], [], []);
      ghost var start := w;
      for i := 0 to |happenings|
        modifies {}
        invariant w == Worked(start, happenings[..i])
      {
        assert DropLast(happenings[..i + 1]) == happenings[..i];
        w := Happen(w, happenings[i]);
      }
      assert happenings[..|happenings|] == happenings;
      swaps, waiting := swaps[chain := w.queue], waiting[chain := w.waiting];
      return w.sent, w.gone;
    }
  }

  // ------------------------------------------------ the queue loses nothing

  function Count(w: Work): multiset<EvmItem> {
    multiset(w.queue) + multiset(w.waiting) + multiset(w.sent) + multiset(w.gone)
  }

  function Arrived(hs: seq<Happening>): multiset<EvmItem> {
    if hs == [] then multiset{}
    else Arrived(DropLast(hs)) + if Last(hs).Arrives? then multiset{Last(hs).item} else multiset{}
  }

  lemma {:induction false} SplitAt(s: seq<EvmItem>, k: nat)
    requires k < |s|
    ensures multiset(s) == multiset{s[k]} + multiset(s[..k] + s[k + 1..])
  {
    assert s == s[..k] + [s[k]] + s[k + 1..];
    assert multiset(s) == multiset(s[..k]) + multiset{s[k]} + multiset(s[k + 1..]);
  }

  lemma {:induction false} AppendCounts(s: seq<EvmItem>, x: EvmItem)
    ensures multiset(s + [x]) == multiset(s) + multiset{x}
  {
  }

  lemma {:induction false} TallyCounts(w: Work, item: EvmItem, fate: Fate)
    ensures Count(Tally(w, item, fate)) == Count(w) + multiset{item}
  {
    match fate
    case Sent(_) => AppendCounts(w.sent, item);
    case Retried => AppendCounts(w.waiting, item);
    case _ => AppendCounts(w.gone, item);
  }

  lemma {:induction false} WakeCounts(w: Work, k: nat)
    ensures Count(Next(w, Wakes(k))) == Count(w)
  {
    if k < |w.waiting| {
      SplitAt(w.waiting, k);
      AppendCounts(w.queue, w.waiting[k]);
    }
  }

  lemma {:induction false} TakeCounts(w: Work)
    requires w.queue != []
    ensures Count(w) == Count(w.(queue := w.queue[1..])) + multiset{w.queue[0]}
  {
    SplitHead(w.queue);
    Rotate(multiset(w.queue[1..]), multiset(w.waiting), multiset(w.sent), multiset(w.gone), multiset{w.queue[0]});
  }

  lemma {:induction false} SplitHead(s: seq<EvmItem>)
    requires s != []
    ensures multiset(s) == multiset(s[1..]) + multiset{s[0]}
  {
    assert s == [s[0]] + s[1..];
  }

  lemma {:induction false} Rotate(a: multiset<EvmItem>, b: multiset<EvmItem>, c: multiset<EvmItem>,
                                  d: multiset<EvmItem>, x: multiset<EvmItem>)
    ensures (a + x) + b + c + d == (a + b + c + d) + x
  {
  }

  lemma {:induction false} WorkCounts(w: Work, a: Answer)
    ensures Count(Next(w, Works(a))) == Count(w)
  {
    hide FateOf, Tally, Count;
    if w.queue != [] {
      TakeCounts(w);
      TallyCounts(w.(queue := w.queue[1..]), w.queue[0], FateOf(w.queue[0], a));
    }
  }

  lemma {:induction false} NextCounts(w: Work, h: Happening)
    ensures Count(Next(w, h)) == Count(w) + if h.Arrives? then multiset{h.item} else multiset{}
  {
    match h
    case Arrives(item) => AppendCounts(w.queue, item);
    case Wakes(k) => WakeCounts(w, k);
    case Works(a) => WorkCounts(w, a);
  }

  /** Every item that was there or arrived is sent, given up, waiting, or still in the channel; none
      is duplicated. */
  lemma {:induction false} QueueConserved(w: Work, hs: seq<Happening>)
    ensures Count(Worked(w, hs)) == Count(w) + Arrived(hs)
  {
    hide Next, Count;
    if hs == [] {
    } else {
      QueueConserved(w, DropLast(hs));
      NextCounts(Worked(w, DropLast(hs)), Last(hs));
    }
  }

  /** What an item asks of the chain before it may be sent. */
  predicate MaySend(item: EvmItem, a: Answer) {
    && item.leg.swap.Some? && a.accepted
    && (item.action == Initiate ==> a.initiated == Some(false))
    && (item.action == Redeem ==> item.leg.secret != BadHex)
    && (item.action == Refund ==> a.expired == Some(true))
    && !item.action.OtherAction?
  }

  /** Only items whose guard the chain confirmed are sent. */
  lemma {:induction false} SentWasGuarded(w: Work, hs: seq<Happening>, k: nat) returns (j: nat)
    requires |w.sent| <= k < |Worked(w, hs).sent|
    ensures j < |hs| && hs[j].Works? && MaySend(Worked(w, hs).sent[k], hs[j].answer)
  {
    var before := Worked(w, DropLast(hs));
    if k < |before.sent| {
      j := SentWasGuarded(w, DropLast(hs), k);
    } else {
      j := |hs| - 1;
    }
  }

  /** Items waiting to be tried again are those the chain told to come back. */
  lemma {:induction false} WaitingWasRetried(w: Work, hs: seq<Happening>, x: EvmItem) returns (j: nat)
    requires x in Worked(w, hs).waiting && x !in w.waiting
    ensures j < |hs| && hs[j].Works? && FateOf(x, hs[j].answer) == Retried
  {
    var before := Worked(w, DropLast(hs));
    if x in before.waiting {
      j := WaitingWasRetried(w, DropLast(hs), x);
    } else {
      j := |hs| - 1;
    }
  }

  /** Items given up are those that could not be read or had nothing left to do. */
  lemma {:induction false} GoneWasFinal(w: Work, hs: seq<Happening>, k: nat) returns (j: nat)
    requires |w.gone| <= k < |Worked(w, hs).gone|
    ensures j < |hs| && hs[j].Works? && FateOf(Worked(w, hs).gone[k], hs[j].answer) in {Skipped, Dropped}
  {
    var before := Worked(w, DropLast(hs));
    if k < |before.gone| {
      j := GoneWasFinal(w, DropLast(hs), k);
    } else {
      j := |hs| - 1;
    }
  }

  /** The items that entered the channel, as they arrived or woke up. */
  function Entered(w: Work, hs: seq<Happening>): seq<EvmItem> {
    if hs == [] then []
    else
      var before := Worked(w, DropLast(hs));
      Entered(w, DropLast(hs)) +
      match Last(hs)
      case Arrives(item) => [item]
      case Wakes(k) => if k < |before.waiting| then [before.waiting[k]] else []
      case Works(_) => []
  }

  /** The items the worker took, in order. */
  function Taken(w: Work, hs: seq<Happening>): seq<EvmItem> {
    if hs == [] then []
    else
      var before := Worked(w, DropLast(hs));
      Taken(w, DropLast(hs)) + if Last(hs).Works? && before.queue != [] then [before.queue[0]] else []
  }

  /** First come, first served: what was taken, followed by what is still queued, is what was queued,
      followed by what entered since. */
  lemma {:induction false} FirstComeFirstServed(w: Work, hs: seq<Happening>)
    ensures Taken(w, hs) + Worked(w, hs).queue == w.queue + Entered(w, hs)
  {
    hide FateOf;
    if hs == [] {
    } else {
      FirstComeFirstServed(w, DropLast(hs));
      var q, taken, entered := Worked(w, DropLast(hs)).queue, Taken(w, DropLast(hs)), Entered(w, DropLast(hs));
      if Last(hs).Works? {
        assert entered + [] == entered;
        assert q != [] ==> (taken + [q[0]]) + q[1..] == taken + q;
        assert Taken(w, hs) == taken + if q != [] then [q[0]] else [];
      } else {
        assert taken + [] == taken;
        var more := Entered(w, hs)[|entered|..];
        assert Entered(w, hs) == entered + more && Worked(w, hs).queue == q + more;
        assert taken + (q + more) == (taken + q) + more;
      }
    }
  }

  /** The worker alone, and the chain never asks to retry. */
  predicate Undisturbed(w: Work, hs: seq<Happening>) {
    hs == [] ||
    (Undisturbed(w, DropLast(hs)) && Last(hs).Works? &&
     var before := Worked(w, DropLast(hs));
     before.queue == [] || FateOf(before.queue[0], Last(hs).answer) != Retried)
  }

  /** Then the channel empties in order, and nothing is left to wait. */
  lemma {:induction false} QueueDrains(w: Work, hs: seq<Happening>)
    requires Undisturbed(w, hs)
    ensures Worked(w, hs).queue == if |hs| <= |w.queue| then w.queue[|hs|..] else []
    ensures Worked(w, hs).waiting == w.waiting
  {
    hide FateOf;
    if hs == [] {
    } else {
      QueueDrains(w, DropLast(hs));
    }
  }

  // ------------------------------------------------ what is queued, and what becomes of it

  /** Exactly which item an order leads to: the follower's leg as it is, to initiate or to refund, or the
      initiator's leg with the follower's secret, to redeem. */
  lemma {:induction false} EvmPicksExactly(chains: set<Chain>, signer: string, l: Listed, item: EvmItem)
    ensures
      var i, f := l.order.initiator, l.order.follower;
      EvmPick(chains, signer, l) == Some(item)
      <==> && l.filled && l.taker == signer && item.leg.chain in chains
           && match item.action
              case Initiate => i.status == Initiated && f.status == NotStarted && item.leg == f
              case Redeem =>
                && i.status == Initiated && f.status in {Redeemed, RedeemDetected} && f.secret != NoSecret
                && item.leg == Leg(i.chain, i.status, i.swap, f.secret)
              case Refund => f.status == Expired && item.leg == f
              case OtherAction(_) => false
  {
  }

  /** A redeem that is sent uses the bytes the follower's leg shows. */
  lemma {:induction false} RedeemUsesShownSecret(chains: set<Chain>, signer: string, l: Listed, item: EvmItem,
                                                 a: Answer)
    requires EvmPick(chains, signer, l) == Some(item) && item.action == Redeem && FateOf(item, a).Sent?
    ensures l.order.follower.secret == Hex(FateOf(item, a).secret)
  {
    EvmPicksExactly(chains, signer, l, item);
    assert item.leg.secret == l.order.follower.secret;
  }

  /** What becomes of an item: it is sent exactly when its guard holds and the chain takes it; it comes
      back exactly when a question stays without an answer, a refund is not due yet, or the chain does
      not take it; a redeem without a readable secret and a swap that does not parse are dropped; and a
      swap that is already initiated, or an unknown action, is left alone. */
  lemma {:induction false} FateExactly(item: EvmItem, a: Answer)
    ensures FateOf(item, a).Sent? <==> MaySend(item, a)
    ensures FateOf(item, a) == Dropped <==>
              item.leg.swap == None || (item.action == Redeem && item.leg.secret == BadHex)
    ensures FateOf(item, a) == Skipped <==>
              && item.leg.swap.Some?
              && ((item.action == Initiate && a.initiated == Some(true)) || item.action.OtherAction?)
    ensures FateOf(item, a) == Retried <==>
              && item.leg.swap.Some?
              && match item.action
                 case Initiate => a.initiated == None || (a.initiated == Some(false) && !a.accepted)
                 case Redeem => item.leg.secret != BadHex && !a.accepted
                 case Refund => a.expired != Some(true) || !a.accepted
                 case OtherAction(_) => false
  {
    if a.initiated.Some? {
      var known: bool := a.initiated.value;
      assert a.initiated == Some(known);
    }
  }

  // ------------------------------------------------ one decision, split by chain

  /** The Bitcoin executor takes exactly its chain's share of the decision, unless both legs are on
      that chain and a redeem is due: that redeem it never takes. */
  lemma {:induction false} ChainTakesItsShare(chain: Chain, o: Order)
    ensures Needed(chain, o) == OnChain(Decision(o), chain)
       <==> !(o.initiator.chain == chain && o.follower.chain == chain && IsRedeem(Decision(o)))
  {
  }

  /** An order whose due redeem the Bitcoin executor never takes. */
  lemma {:induction false} RedeemLeftAlone(chain: Chain, s: Swap) returns (o: Order)
    ensures Decision(o) == Some((Redeem, o.initiator)) && o.initiator.chain == chain && o.initiator.swap == Some(s)
    ensures Needed(chain, o) == None
  {
    o := Order(Leg(chain, Initiated, Some(s), NoSecret), Leg(chain, Redeemed, None, Hex([])));
  }

  /** With legs on different supported chains, each step falls to exactly one executor. */
  lemma {:induction false} ExactlyOneExecutor(chains: set<Chain>, signer: string, l: Listed)
    requires BitcoinChain !in chains && l.filled && l.taker == signer && !LacksSecret(signer, l)
    requires l.order.initiator.chain != l.order.follower.chain
    requires {l.order.initiator.chain, l.order.follower.chain} <= chains + {BitcoinChain}
    ensures Decision(l.order).Some? <==> (Needed(BitcoinChain, l.order).Some? <==> EvmPick(chains, signer, l) == None)
    ensures Decision(l.order) == None ==> Needed(BitcoinChain, l.order) == None && EvmPick(chains, signer, l) == None
    ensures Needed(BitcoinChain, l.order).Some? ==> Needed(BitcoinChain, l.order) == Decision(l.order)
    ensures EvmPick(chains, signer, l).Some? ==> EvmPick(chains, signer, l).value.action == Decision(l.order).value.0
  {
    ChainTakesItsShare(BitcoinChain, l.order);
    if Decision(l.order).Some? {
      assert Decision(l.order).value.1.chain in {l.order.initiator.chain, l.order.follower.chain};
    }
  }

  /** The Bitcoin executor takes a redeem without a secret exactly when the redeem is due on its
      chain, parses, was not executed before, and the follower's leg shows no bytes. The EVM executor
      takes no order whose secret is absent. */
  lemma {:induction false} RedeemsWithoutSecret(prev: set<BatchKey>, views: Views, o: Order)
    ensures
      var pick := PickOrder(BitcoinChain, prev, views, o);
      pick.Take? && pick.item.action == Redeem && pick.item.secret == []
      <==> && IsRedeem(Decision(o)) && o.initiator.chain == BitcoinChain && o.follower.chain != BitcoinChain
           && o.initiator.swap.Some? && BatchKey(Redeem, o.initiator.swap.value.secretHash) !in prev
           && DecodeSecret(o.follower.secret) == Some([])
    ensures forall chains, signer, l :: l == Listed(true, signer, o) && IsRedeem(Decision(o)) ==>
              (EvmPick(chains, signer, l).Some? <==> o.initiator.chain in chains && o.follower.secret != NoSecret)
  {
    ChainTakesItsShare(BitcoinChain, o);
  }

  /** An order that the Bitcoin executor redeems with no bytes and no EVM executor would touch. */
  lemma {:induction false} EmptySecretIsUsed(s: Swap, views: Views) returns (o: Order)
    ensures PickOrder(BitcoinChain, {}, views, o) == Take(ActionItem(Redeem, s, []))
    ensures forall chains, signer :: EvmPick(chains, signer, Listed(true, signer, o)) == None
  {
    o := Order(Leg(BitcoinChain, Initiated, Some(s), NoSecret), Leg(EvmChain(""), Redeemed, None, NoSecret));
  }

  // ------------------------------------------------ the lifecycle

  /** One step of the flowchart for the two statuses, or none. */
  predicate Flows(i: SwapStatus, f: SwapStatus, i': SwapStatus, f': SwapStatus) {
    || (i' == i && f' == f)
    || (f' == f && LegMoves(i, i'))
    || (i' == i && LegMoves(f, f') && (f == NotStarted ==> i == Initiated))
  }

  /** A leg is initiated, then either redeemed or expired and refunded. */
  predicate LegMoves(s: SwapStatus, s': SwapStatus) {
    match s
    case NotStarted => s' in {Detected, Initiated}
    case Detected => s' == Initiated
    case Initiated => s' in {RedeemDetected, Redeemed, Expired}
    case RedeemDetected => s' == Redeemed
    case Expired => s' == Refunded
    case _ => false
  }

  /** A moment of an order's life; the executors may be looking or not. */
  datatype Moment = Moment(listed: Listed, bitcoinLooks: bool, evmLooks: bool)

  predicate Life(t: seq<Moment>) {
    |t| <= 1 ||
    (Life(DropLast(t)) &&
     Flows(t[|t| - 2].listed.order.initiator.status, t[|t| - 2].listed.order.follower.status,
           Last(t).listed.order.initiator.status, Last(t).listed.order.follower.status))
  }

  function TakenByBitcoin(m: Moment): seq<Action> {
    var n := Needed(BitcoinChain, m.listed.order);
    if m.bitcoinLooks && n.Some? then [n.value.0] else []
  }

  function TakenByEvm(chains: set<Chain>, signer: string, m: Moment): seq<Action> {
    var n := EvmPick(chains, signer, m.listed);
    if m.evmLooks && n.Some? then [n.value.action] else []
  }

  /** All actions dispatched for the order, by either executor. */
  function Dispatched(chains: set<Chain>, signer: string, t: seq<Moment>): seq<Action> {
    if t == [] then []
    else Dispatched(chains, signer, DropLast(t)) + TakenByBitcoin(Last(t)) + TakenByEvm(chains, signer, Last(t))
  }

  /** Repeats collapsed. */
  function Collapse(s: seq<Action>): seq<Action> {
    if s == [] then []
    else if |s| >= 2 && s[|s| - 2] == Last(s) then Collapse(DropLast(s))
    else Collapse(DropLast(s)) + [Last(s)]
  }

  predicate Subsequence(s: seq<Action>, t: seq<Action>) {
    if s == [] then true
    else if t == [] then false
    else if s[0] == t[0] then Subsequence(s[1..], t[1..])
    else Subsequence(s, t[1..])
  }

  /** What can have been dispatched by the time the follower's leg has the status. */
  predicate Reached(f: SwapStatus, c: seq<Action>) {
    || c == [] || c == [Initiate]
    || (f in {RedeemDetected, Redeemed} && (c == [Redeem] || c == [Initiate, Redeem]))
    || (f in {Expired, Refunded} && (c == [Refund] || c == [Initiate, Refund]))
  }

  lemma {:induction false} CollapseOne(s: seq<Action>, a: Action)
    ensures Collapse(s + [a]) == if s != [] && Last(s) == a then Collapse(s) else Collapse(s) + [a]
    ensures s != [] ==> Collapse(s) != [] && Last(Collapse(s)) == Last(s)
    decreases |s|
  {
    assert DropLast(s + [a]) == s;
    if s == [] {
    } else {
      CollapseOne(DropLast(s), Last(s));
      assert DropLast(s) + [Last(s)] == s;
    }
  }

  /** The one action a moment calls for. */
  function Due(o: Order): Option<Action> {
    var d := Decision(o);
    if d.Some? then Some(d.value.0) else None
  }

  lemma {:induction false} TakenIsDue(chains: set<Chain>, signer: string, m: Moment)
    ensures TakenByBitcoin(m) in {[]} || (Due(m.listed.order).Some? && TakenByBitcoin(m) == [Due(m.listed.order).value])
    ensures TakenByEvm(chains, signer, m) in {[]}
            || (Due(m.listed.order).Some? && TakenByEvm(chains, signer, m) == [Due(m.listed.order).value])
  {
  }

  lemma {:induction false} ReachedWith(f: SwapStatus, c: seq<Action>, a: Action)
    requires Reached(f, c)
    requires (a == Initiate && f == NotStarted) || (a == Redeem && f in {RedeemDetected, Redeemed})
            || (a == Refund && f == Expired)
    ensures Reached(f, if c != [] && Last(c) == a then c else c + [a])
  {
    assert [] + [a] == [a] && [Initiate] + [a] == [Initiate, a];
  }

  lemma {:induction false} ReachedStep(s: seq<Action>, o: Order)
    requires Reached(o.follower.status, Collapse(s)) && Due(o).Some?
    ensures Reached(o.follower.status, Collapse(s + [Due(o).value]))
  {
    var a := Due(o).value;
    CollapseOne(s, a);
    LastOfCollapse(s);
    hide Collapse, Reached;
    ReachedWith(o.follower.status, Collapse(s), a);
  }

  lemma {:induction false} LastOfCollapse(s: seq<Action>)
    ensures s == [] ==> Collapse(s) == []
    ensures s != [] ==> Collapse(s) != [] && Last(Collapse(s)) == Last(s)
  {
    if s != [] {
      CollapseOne(DropLast(s), Last(s));
      assert DropLast(s) + [Last(s)] == s;
    }
  }

  lemma {:induction false} ReachedLater(i: SwapStatus, f: SwapStatus, i': SwapStatus, f': SwapStatus, c: seq<Action>)
    requires Reached(f, c) && Flows(i, f, i', f')
    ensures Reached(f', c)
  {
  }

  lemma {:induction false} LifeReaches(chains: set<Chain>, signer: string, t: seq<Moment>)
    requires Life(t) && t != []
    ensures Reached(Last(t).listed.order.follower.status, Collapse(Dispatched(chains, signer, t)))
  {
    var d, m := DropLast(t), Last(t);
    var o, before := m.listed.order, Dispatched(chains, signer, d);
    if d == [] {
      assert before == [] && Collapse(before) == [];
    } else {
      LifeReaches(chains, signer, d);
      assert Last(d) == t[|t| - 2];
      ReachedLater(Last(d).listed.order.initiator.status, Last(d).listed.order.follower.status,
                   o.initiator.status, o.follower.status, Collapse(before));
    }
    TakenIsDue(chains, signer, m);
    hide Collapse, Reached, Needed, EvmPick, Due, Decision;
    assert before + [] == before;
    if TakenByBitcoin(m) != [] {
      ReachedStep(before, o);
    }
    var mid := before + TakenByBitcoin(m);
    assert mid + [] == mid;
    if TakenByEvm(chains, signer, m) != [] {
      ReachedStep(mid, o);
    }
  }

  /** Along any life of an order, whenever the executors look, the dispatched actions with repeats
      collapsed are a subsequence of initiate-redeem or of initiate-refund. */
  lemma {:induction false} LifecycleOrder(chains: set<Chain>, signer: string, t: seq<Moment>)
    requires Life(t)
    ensures var c := Collapse(Dispatched(chains, signer, t));
            Subsequence(c, [Initiate, Redeem]) || Subsequence(c, [Initiate, Refund])
  {
    var c := Collapse(Dispatched(chains, signer, t));
    if t == [] {
      assert Reached(NotStarted, c);
    } else {
      LifeReaches(chains, signer, t);
    }
    ShortSubsequences(c);
  }

  lemma {:induction false} ShortSubsequences(c: seq<Action>)
    requires exists f :: Reached(f, c)
    ensures Subsequence(c, [Initiate, Redeem]) || Subsequence(c, [Initiate, Refund])
  {
    var f :| Reached(f, c);
    var redeem, refund := [Initiate, Redeem], [Initiate, Refund];
    assert redeem[1..] == [Redeem] && refund[1..] == [Refund];
    if c == [Redeem] || c == [Refund] || c == [Initiate] {
      assert c[1..] == [];
      assert Subsequence(c[1..], redeem[1..]) && Subsequence(c[1..], refund[1..]);
      assert c[0] == Redeem ==> Subsequence(c, redeem[1..]);
      assert c[0] == Refund ==> Subsequence(c, refund[1..]);
    } else if c != [] {
      assert c[1..] == [c[1]] && c[1..][1..] == [];
      assert c[1] == Redeem ==> Subsequence(c[1..], redeem[1..]);
      assert c[1] == Refund ==> Subsequence(c[1..], refund[1..]);
    }
  }
}
