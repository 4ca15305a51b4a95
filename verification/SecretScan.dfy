/** The scan of an EVM chain's logs for a revealed secret, window by window. */
module SecretScan {
  import opened Bitcoin

  const WORD: nat := 0x1_0000_0000_0000_0000

  type Word = n: nat | n < WORD witness 0                       // uint64
  type Height = n: nat | n < 0x8000_0000_0000_0000 witness 0    // a block number of a real chain

  datatype Redeemed = Redeemed(block: nat, id: Bytes, hash: Bytes, secret: Bytes)

  /** What the contract knows of a swap. */
  datatype Details = Details(initiatedAt: nat, timelock: nat, fulfilled: bool)

  datatype Scan = Found(secret: Bytes) | NotFound | NotRedeemed | Unreachable

  /** The swap's events in the blocks lo to hi, both included, in chain order. */
  function Matches(events: seq<Redeemed>, id: Bytes, hash: Bytes, lo: int, hi: int): seq<Redeemed> {
    if events == [] then []
    else
      var e := Last(events);
      Matches(DropLast(events), id, hash, lo, hi)
      + if e.id == id && e.hash == hash && lo <= e.block <= hi then [e] else []
  }

  /** Events come in the order of their blocks. */
  predicate Ordered(events: seq<Redeemed>) {
    |events| <= 1 || (Ordered(DropLast(events)) && events[|events| - 2].block <= Last(events).block)
  }

  class Node {
    const events: seq<Redeemed>
    const refuses: (int, int) -> bool             // windows the node answers with an error

    constructor (events: seq<Redeemed>, refuses: (int, int) -> bool)
      ensures this.events == events && this.refuses == refuses
    {
      this.events, this.refuses := events, refuses;
    }

    method FilterRedeemed(id: Bytes, hash: Bytes, start: int, end: int) returns (r: Option<seq<Redeemed>>)
      ensures r == if refuses(start, end) then None else Some(Matches(events, id, hash, start, end))
    {
      r := if refuses(start, end) then None else Some(Matches(events, id, hash, start, end));
    }
  }

  /** The last block searched: the latest, but not past the expiry. */
  function Bound(d: Details, latest: nat): (b: nat)
    ensures b <= latest && b <= d.initiatedAt + d.timelock && b in {latest, d.initiatedAt + d.timelock}
  {
    if latest > d.initiatedAt + d.timelock then d.initiatedAt + d.timelock else latest
  }

  /** Where the search really begins. While adding the step overflows, the window is inverted and
      the search falls back by what is missing to 2^64. */
  function Lowest(start: nat, step: Word): nat
    requires step > 0
  {
    if start + step >= WORD && start >= WORD - step then Lowest(start - (WORD - step), step) else start
  }

  function FirstOf(es: seq<Redeemed>): Scan {
    if es == [] then NotFound else Found(es[0].secret)
  }

  function StepOf(step: Word): Word { if step == 0 then 500 else step }

  // ------------------------------------------------ windows

  lemma {:induction false} MatchesMember(events: seq<Redeemed>, id: Bytes, hash: Bytes, lo: int, hi: int, e: Redeemed)
    ensures e in Matches(events, id, hash, lo, hi)
            <==> e in events && e.id == id && e.hash == hash && lo <= e.block <= hi
  {
    if events == [] {
    } else {
      MatchesMember(DropLast(events), id, hash, lo, hi, e);
      assert e in events <==> e in DropLast(events) || e == Last(events);
    }
  }

  lemma {:induction false} InvertedIsEmpty(events: seq<Redeemed>, id: Bytes, hash: Bytes, lo: int, hi: int)
    requires hi < lo
    ensures Matches(events, id, hash, lo, hi) == []
  {
    if events == [] {
    } else {
      InvertedIsEmpty(DropLast(events), id, hash, lo, hi);
    }
  }

  /** An empty first window can be skipped. */
  lemma {:induction false} SkipEmptyWindow(events: seq<Redeemed>, id: Bytes, hash: Bytes, lo: int, mid: int, hi: int)
    requires lo <= mid <= hi && Matches(events, id, hash, lo, mid) == []
    ensures Matches(events, id, hash, mid, hi) == Matches(events, id, hash, lo, hi)
    ensures mid == hi ==> Matches(events, id, hash, lo, hi) == []
  {
    if events == [] {
    } else {
      SkipEmptyWindow(DropLast(events), id, hash, lo, mid, hi);
    }
  }

  /** In chain order, what the first window holds comes first. */
  lemma {:induction false} FirstWindowFirst(events: seq<Redeemed>, id: Bytes, hash: Bytes, lo: int, mid: int, hi: int)
    requires Ordered(events) && lo <= mid <= hi
    ensures Matches(events, id, hash, lo, mid) <= Matches(events, id, hash, lo, hi)
  {
    if events == [] {
    } else {
      var d, e := DropLast(events), Last(events);
      FirstWindowFirst(d, id, hash, lo, mid, hi);
      if e.block <= mid {
        AllUpTo(d, id, hash, lo, mid, hi, e.block);
      }
    }
  }

  lemma {:induction false} AllUpTo(events: seq<Redeemed>, id: Bytes, hash: Bytes, lo: int, mid: int, hi: int, b: nat)
    requires Ordered(events) && b <= mid <= hi && (events != [] ==> Last(events).block <= b)
    ensures Matches(events, id, hash, lo, mid) == Matches(events, id, hash, lo, hi)
  {
    if events == [] {
    } else {
      AllUpTo(DropLast(events), id, hash, lo, mid, hi, b);
    }
  }

  /** The event reveals the swap's secret in these blocks, both included. */
  predicate Reveals(e: Redeemed, id: Bytes, hash: Bytes, lo: int, hi: int) {
    e.id == id && e.hash == hash && lo <= e.block <= hi
  }

  /** The i-th event is the first to do so. */
  predicate FirstReveal(events: seq<Redeemed>, id: Bytes, hash: Bytes, lo: int, hi: int, i: int) {
    && 0 <= i < |events| && Reveals(events[i], id, hash, lo, hi)
    && forall j :: 0 <= j < i ==> !Reveals(events[j], id, hash, lo, hi)
  }

  lemma {:induction false} MatchesNone(events: seq<Redeemed>, id: Bytes, hash: Bytes, lo: int, hi: int)
    ensures Matches(events, id, hash, lo, hi) == [] <==> forall e :: e in events ==> !Reveals(e, id, hash, lo, hi)
  {
    var all := Matches(events, id, hash, lo, hi);
    hide Matches;
    if all != [] {
      MatchesMember(events, id, hash, lo, hi, all[0]);
      assert Reveals(all[0], id, hash, lo, hi);
    }
    forall e | e in events && Reveals(e, id, hash, lo, hi) ensures all != [] {
      MatchesMember(events, id, hash, lo, hi, e);
    }
  }

  lemma {:induction false} MatchesFirst(events: seq<Redeemed>, id: Bytes, hash: Bytes, lo: int, hi: int)
    returns (i: int)
    requires Matches(events, id, hash, lo, hi) != []
    ensures FirstReveal(events, id, hash, lo, hi, i) && Matches(events, id, hash, lo, hi)[0] == events[i]
  {
    var d := DropLast(events);
    if Matches(d, id, hash, lo, hi) != [] {
      i := MatchesFirst(d, id, hash, lo, hi);
      assert forall j :: 0 <= j < |d| ==> d[j] == events[j];
    } else {
      i := |d|;
      MatchesNone(d, id, hash, lo, hi);
      assert forall j :: 0 <= j < |d| ==> events[j] in d;
    }
  }

  /** The answer is the secret of the first event that reveals it in these blocks, or that none does. */
  ghost predicate TellsFirst(events: seq<Redeemed>, id: Bytes, hash: Bytes, lo: int, hi: int, r: Scan) {
    match r
    case Found(secret) => exists i :: FirstReveal(events, id, hash, lo, hi, i) && secret == events[i].secret
    case NotFound => forall e :: e in events ==> !Reveals(e, id, hash, lo, hi)
    case _ => false
  }

  // ------------------------------------------------ the scan

  /** What the scan of the windows answers when the node refuses none. */
  function Scanned(events: seq<Redeemed>, id: Bytes, hash: Bytes, d: Details, latest: nat, step: Word): Scan {
    if d.initiatedAt >= Bound(d, latest) then NotFound
    else FirstOf(Matches(events, id, hash, Lowest(d.initiatedAt, StepOf(step)), Bound(d, latest)))
  }

  /** The last block of the window that starts at a block. */
  function WindowEnd(start: nat, step: Word, latest: nat): nat {
    var end := (start + step) % WORD;
    if end > latest then latest else end
  }

  function Smaller(a: int, b: int): int { if a < b then a else b }

  /** How far the scan still has to go. */
  function Distance(start: nat, step: Word, latest: nat): int {
    if start < latest && start + step >= WORD then latest + start else latest - start
  }

  /** Where one window leads: past an overflow the search falls back, otherwise it moves on. */
  lemma {:induction false} WindowMoves(start: nat, step: Word, latest: Height)
    requires step > 0 && start < latest
    ensures var end := WindowEnd(start, step, latest);
            && end <= latest && 0 <= Distance(end, step, latest) < Distance(start, step, latest)
            && end == Smaller(if start + step < WORD then start + step else start + step - WORD, latest)
            && (end < start ==> end < latest && Lowest(end, step) == Lowest(start, step))
            && (start <= end ==> Lowest(start, step) == start && (end < latest ==> Lowest(end, step) == end))
  {
    if start + step >= WORD {
      assert (start + step) % WORD == start + step - WORD;
    } else {
      assert (start + step) % WORD == start + step;
    }
  }

  /** What one window contributes to the answer. */
  lemma {:induction false} OneWindow(events: seq<Redeemed>, id: Bytes, hash: Bytes, start: nat, step: Word,
                                     latest: Height)
    requires Ordered(events) && step > 0 && start < latest
    ensures var end := WindowEnd(start, step, latest);
            var all := Matches(events, id, hash, Lowest(start, step), latest);
            var w := Matches(events, id, hash, start, end);
            && (w != [] ==> FirstOf(all) == Found(w[0].secret))
            && (w == [] && end < latest ==> all == Matches(events, id, hash, Lowest(end, step), latest))
            && (w == [] && end >= latest ==> all == [])
  {
    var end := WindowEnd(start, step, latest);
    WindowMoves(start, step, latest);
    hide WindowEnd, Lowest, Matches, Ordered;
    if end < start {
      InvertedIsEmpty(events, id, hash, start, end);
    } else {
      FirstWindowFirst(events, id, hash, start, end, latest);
      if Matches(events, id, hash, start, end) == [] {
        SkipEmptyWindow(events, id, hash, start, end, latest);
      }
    }
  }

  /** The scan that starts at a block asks for the window from lo to hi: every window before it was
      empty. */
  ghost predicate Asked(events: seq<Redeemed>, id: Bytes, hash: Bytes, start: nat, step: Word, latest: Height,
                        lo: int, hi: int)
    requires step > 0
    decreases Distance(start, step, latest)
  {
    start < latest &&
    var end := WindowEnd(start, step, latest);
    || (lo == start && hi == end)
    || (Matches(events, id, hash, start, end) == []
        && (WindowMoves(start, step, latest); Asked(events, id, hash, end, step, latest, lo, hi)))
  }

  /** The node refuses some window the scan asks for. */
  ghost predicate Blocked(node: Node, id: Bytes, hash: Bytes, start: nat, step: Word, latest: Height)
    requires step > 0
  {
    exists lo, hi :: Asked(node.events, id, hash, start, step, latest, lo, hi) && node.refuses(lo, hi)
  }

  lemma {:induction false} BlockedLater(node: Node, id: Bytes, hash: Bytes, start: nat, step: Word, latest: Height)
    requires step > 0 && start < latest
    ensures
      var end := WindowEnd(start, step, latest);
      Blocked(node, id, hash, start, step, latest)
      <==> node.refuses(start, end)
           || (Matches(node.events, id, hash, start, end) == [] && Blocked(node, id, hash, end, step, latest))
  {
    hide Matches, WindowEnd;
    var end := WindowEnd(start, step, latest);
    if node.refuses(start, end) {
      assert Asked(node.events, id, hash, start, step, latest, start, end);
    } else if Matches(node.events, id, hash, start, end) == [] && Blocked(node, id, hash, end, step, latest) {
      var lo, hi :| Asked(node.events, id, hash, end, step, latest, lo, hi) && node.refuses(lo, hi);
      assert Asked(node.events, id, hash, start, step, latest, lo, hi);
    }
  }

  /** No redemption of the swap lies before its initiation. */
  predicate NoneBefore(events: seq<Redeemed>, id: Bytes, hash: Bytes, from: int) {
    forall e :: e in events && e.id == id && e.hash == hash ==> e.block >= from
  }

  /** What the scan answers, said of the events themselves. */
  lemma {:induction false} ScannedFirst(events: seq<Redeemed>, id: Bytes, hash: Bytes, d: Details, latest: Height,
                                        step: Word)
    requires NoneBefore(events, id, hash, d.initiatedAt) || d.initiatedAt + StepOf(step) < WORD
    ensures
      var lo, hi, r := d.initiatedAt, Bound(d, latest), Scanned(events, id, hash, d, latest, step);
      if lo >= hi then r == NotFound else TellsFirst(events, id, hash, lo, hi, r)
  {
    var lo, hi := d.initiatedAt, Bound(d, latest);
    LowestIsLower(lo, StepOf(step));
    if NoneBefore(events, id, hash, lo) {
      WiderIsSame(events, id, hash, Lowest(lo, StepOf(step)), lo, hi);
    }
    hide Matches, Lowest, FirstReveal, Reveals, NoneBefore;
    MatchesNone(events, id, hash, lo, hi);
    if Matches(events, id, hash, lo, hi) != [] {
      var i := MatchesFirst(events, id, hash, lo, hi);
    }
  }

  /** The revealed secret. For every step, also one whose addition overflows, the search ends and
      its windows leave no gap; it gives up exactly when the node refuses a window it asks for. */
  method Secret(node: Node, id: Bytes, hash: Bytes, details: Option<Details>, latestBlock: Option<Height>,
                givenStep: Word)
    returns (r: Scan)
    requires Ordered(node.events)
    ensures details == None ==> r == Unreachable
    ensures details.Some? && !details.value.fulfilled ==> r == NotRedeemed
    ensures details.Some? && details.value.fulfilled && latestBlock == None ==> r == Unreachable
    ensures details.Some? && details.value.fulfilled && latestBlock.Some? ==>
              var d, latest, step := details.value, latestBlock.value, if givenStep == 0 then 500 else givenStep;
              if Blocked(node, id, hash, d.initiatedAt, step, Bound(d, latest)) then r == Unreachable
              else r == Scanned(node.events, id, hash, d, latest, givenStep)
    ensures details.Some? && details.value.fulfilled && latestBlock.Some? && r == Unreachable ==>
              exists lo, hi :: node.refuses(lo, hi) && hi <= Bound(details.value, latestBlock.value)
    ensures details.Some? && details.value.fulfilled && latestBlock.Some? && r != Unreachable ==>
              var lo, hi := details.value.initiatedAt, Bound(details.value, latestBlock.value);
              NoneBefore(node.events, id, hash, lo) || lo + StepOf(givenStep) < WORD ==>
                if lo >= hi then r == NotFound else TellsFirst(node.events, id, hash, lo, hi, r)
  {
    if details == None {
      return Unreachable;
    }
    if !details.value.fulfilled {
      return NotRedeemed;
    }
    var start: nat := details.value.initiatedAt;
    if latestBlock == None {
      return Unreachable;
    }
    var latest: nat := latestBlock.value;
    var step: Word := givenStep;
    if step == 0 {
      step := 500;
    }
    var expiry := details.value.initiatedAt + details.value.timelock;
    if latest > expiry {
      latest := expiry;
    }
    assert latest == Bound(details.value, latestBlock.value);
    var d, block := details.value, latestBlock.value;
    hide Matches, Lowest, Ordered, Blocked, Distance, TellsFirst, NoneBefore;
    if NoneBefore(node.events, id, hash, d.initiatedAt) || d.initiatedAt + StepOf(givenStep) < WORD {
      ScannedFirst(node.events, id, hash, d, block, givenStep);
    }
    r := ScanWindows(node, id, hash, start, latest, step);
    if r == Unreachable {
      BlockedWithin(node, id, hash, start, step, latest);
    }
  }

  lemma {:induction false} AskedWithin(events: seq<Redeemed>, id: Bytes, hash: Bytes, start: nat, step: Word,
                                       latest: Height, lo: int, hi: int)
    requires step > 0 && Asked(events, id, hash, start, step, latest, lo, hi)
    ensures hi <= latest
    decreases Distance(start, step, latest)
  {
    WindowMoves(start, step, latest);
    var end := WindowEnd(start, step, latest);
    if !(lo == start && hi == end) {
      AskedWithin(events, id, hash, end, step, latest, lo, hi);
    }
  }

  lemma {:induction false} BlockedWithin(node: Node, id: Bytes, hash: Bytes, start: nat, step: Word, latest: Height)
    requires step > 0 && Blocked(node, id, hash, start, step, latest)
    ensures exists lo, hi :: node.refuses(lo, hi) && hi <= latest
  {
    var lo, hi :| Asked(node.events, id, hash, start, step, latest, lo, hi) && node.refuses(lo, hi);
    AskedWithin(node.events, id, hash, start, step, latest, lo, hi);
  }

  /** The loop over the windows. */
  method ScanWindows(node: Node, id: Bytes, hash: Bytes, from: nat, latest: Height, step: Word) returns (r: Scan)
    requires Ordered(node.events) && step > 0
    ensures r == if Blocked(node, id, hash, from, step, latest) then Unreachable
                 else if from >= latest then NotFound
                 else FirstOf(Matches(node.events, id, hash, Lowest(from, step), latest))
  {
    hide Matches, Lowest, Ordered, Blocked, Distance;
    var start: nat := from;
    ghost var blocked := Blocked(node, id, hash, start, step, latest);
    ghost var want := if from >= latest then NotFound
                      else FirstOf(Matches(node.events, id, hash, Lowest(from, step), latest));
    while start < latest
      invariant blocked == Blocked(node, id, hash, start, step, latest)
      invariant start < latest ==> want == FirstOf(Matches(node.events, id, hash, Lowest(start, step), latest))
      invariant start >= latest ==> want == NotFound
      decreases Distance(start, step, latest)
    {
      OneWindow(node.events, id, hash, start, step, latest);
      WindowMoves(start, step, latest);
      BlockedLater(node, id, hash, start, step, latest);
      var end := (start + step) % WORD;
      if end > latest {
        end := latest;
      }
      var iter := node.FilterRedeemed(id, hash, start, end);
      if iter == None {
        return Unreachable;
      }
      if |iter.value| > 0 {
        return Found(iter.value[0].secret);
      }
      start := end;
    }
    NotBlockedAtEnd(node, id, hash, start, step, latest);
    return NotFound;
  }

  lemma {:induction false} NotBlockedAtEnd(node: Node, id: Bytes, hash: Bytes, start: nat, step: Word, latest: Height)
    requires step > 0 && start >= latest
    ensures !Blocked(node, id, hash, start, step, latest)
  {
  }

  // ------------------------------------------------ what the scan finds

  lemma {:induction false} LowestIsLower(start: nat, step: Word)
    requires step > 0
    ensures Lowest(start, step) <= start
    ensures start + step < WORD ==> Lowest(start, step) == start
  {
    if start + step >= WORD && start >= WORD - step {
      LowestIsLower(start - (WORD - step), step);
    }
  }

  lemma {:induction false} WiderIsSame(events: seq<Redeemed>, id: Bytes, hash: Bytes, lo: int, from: int, hi: int)
    requires lo <= from
    requires forall e :: e in events && e.id == id && e.hash == hash ==> e.block >= from
    ensures Matches(events, id, hash, lo, hi) == Matches(events, id, hash, from, hi)
  {
    if events == [] {
    } else {
      assert Last(events) in events;
      assert forall e :: e in DropLast(events) ==> e in events;
      WiderIsSame(DropLast(events), id, hash, lo, from, hi);
    }
  }

  /** No swap is redeemed before it is initiated; so whatever the step, the scan finds a secret
      exactly when one was revealed from the initiation to the bound, both included, and the bound
      lies past the initiation. What it finds is the first one revealed. */
  lemma {:induction false} FindsEveryRedeem(events: seq<Redeemed>, id: Bytes, hash: Bytes, d: Details,
                                            latest: Height, step: Word)
    requires Ordered(events)
    requires forall e :: e in events && e.id == id && e.hash == hash ==> e.block >= d.initiatedAt
    ensures Scanned(events, id, hash, d, latest, step).Found? <==>
              d.initiatedAt < Bound(d, latest)
              && exists e :: e in events && e.id == id && e.hash == hash && e.block <= Bound(d, latest)
    ensures Scanned(events, id, hash, d, latest, step) == Scanned(events, id, hash, d, latest, 500)
  {
    var hi := Bound(d, latest);
    forall s: Word | s == step || s == 500
      ensures Matches(events, id, hash, Lowest(d.initiatedAt, StepOf(s)), hi)
              == Matches(events, id, hash, d.initiatedAt, hi)
    {
      LowestIsLower(d.initiatedAt, StepOf(s));
      WiderIsSame(events, id, hash, Lowest(d.initiatedAt, StepOf(s)), d.initiatedAt, hi);
    }
    var all := Matches(events, id, hash, d.initiatedAt, hi);
    if all != [] {
      MatchesMember(events, id, hash, d.initiatedAt, hi, all[0]);
    }
    forall e | e in events && e.id == id && e.hash == hash && e.block <= hi ensures all != [] {
      MatchesMember(events, id, hash, d.initiatedAt, hi, e);
    }
  }
}
