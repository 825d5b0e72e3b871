/** Histories of the bounded buffer, seen as a stack.  Both buffer programs are
    measured against this module: which orders of pushes and pops are possible,
    and in which order numbered items come out again. */
module BoundedStack {
  import opened Counting

  /** One session of a buffer program: the capacity, the characters produced,
      and what the uninitialised array holds at the start. */
  datatype Params = Params(max: nat, input: seq<char>, junk: seq<char>) {
    predicate Valid() { max >= 1 && |junk| == max }
    function N(): nat { |input| }
  }

  datatype Op = Push | Pop

  function Pushes(h: seq<Op>): nat {
    if h == [] then 0 else Pushes(h[..|h| - 1]) + if h[|h| - 1] == Push then 1 else 0
  }

  function Pops(h: seq<Op>): nat {
    if h == [] then 0 else Pops(h[..|h| - 1]) + if h[|h| - 1] == Pop then 1 else 0
  }

  function Level(h: seq<Op>): int { Pushes(h) - Pops(h) }

  /** Every prefix leaves between 0 and `max` items in the buffer. */
  ghost predicate Bounded(h: seq<Op>, max: int) {
    forall k :: 0 <= k <= |h| ==> 0 <= Level(h[..k]) <= max
  }

  /** A whole session: `n` pushes and `n` pops, never under- or overflowing. */
  ghost predicate Complete(h: seq<Op>, n: nat, max: int) {
    Bounded(h, max) && Pushes(h) == n && Pops(h) == n
  }

  /** Items are numbered in production order.  `stack` holds the items inside,
      bottom first; `popped` the items taken out, in consumption order. */
  datatype Contents = Contents(stack: seq<nat>, popped: seq<nat>)

  function PushOn(c: Contents, item: nat): Contents { c.(stack := c.stack + [item]) }

  function PopOff(c: Contents): Contents {
    var top := |c.stack| - 1;
    if top < 0 then c else Contents(c.stack[..top], c.popped + [c.stack[top]])
  }

  function Replay(h: seq<Op>): Contents {
    if h == [] then Contents([], [])
    else
      var g := h[..|h| - 1];
      if h[|h| - 1] == Push then PushOn(Replay(g), Pushes(g)) else PopOff(Replay(g))
  }

  lemma BoundedPrefix(h: seq<Op>, max: int)
    requires h != [] && Bounded(h, max)
    ensures Bounded(h[..|h| - 1], max)
  {
    var g := h[..|h| - 1];
    forall k | 0 <= k <= |g| ensures 0 <= Level(g[..k]) <= max {
      assert g[..k] == h[..k];
    }
  }

  lemma Snoc(h: seq<Op>, op: Op)
    ensures (h + [op])[..|h|] == h
    ensures Pushes(h + [op]) == Pushes(h) + (if op == Push then 1 else 0)
    ensures Pops(h + [op]) == Pops(h) + (if op == Pop then 1 else 0)
  {
    assert (h + [op])[..|h|] == h;
  }

  lemma BoundedSnoc(h: seq<Op>, op: Op, max: int)
    requires Bounded(h, max)
    requires 0 <= Level(h) + (if op == Push then 1 else -1) <= max
    ensures Bounded(h + [op], max)
  {
    var g := h + [op];
    Snoc(h, op);
    forall k | 0 <= k <= |g| ensures 0 <= Level(g[..k]) <= max {
      if k <= |h| { assert g[..k] == h[..k]; } else { assert g[..k] == g; }
    }
  }

  /** The facts that every bounded history keeps about numbered items. */
  ghost predicate Ordered(c: Contents, next: nat) {
    && (forall i, j :: 0 <= i < j < |c.stack| ==> c.stack[i] < c.stack[j])
    && (forall i :: 0 <= i < |c.stack| ==> c.stack[i] < next)
    && (forall j :: 0 <= j < |c.popped| ==> c.popped[j] < next)
    && (forall i, j :: 0 <= i < j < |c.popped| ==> c.popped[i] != c.popped[j])
    && (forall x :: 0 <= x < next ==> x in c.stack || x in c.popped)
    && (forall x :: x in c.stack ==> x !in c.popped)
  }

  lemma PushKeepsOrdered(c: Contents, next: nat)
    requires Ordered(c, next)
    ensures Ordered(PushOn(c, next), next + 1)
  {
    assert forall x: nat :: x in c.stack + [next] <==> x in c.stack || x == next;
  }

  lemma PopKeepsOrdered(c: Contents, next: nat)
    requires Ordered(c, next) && c.stack != []
    ensures Ordered(PopOff(c), next)
  {
    var top := |c.stack| - 1;
    var d := PopOff(c);
    assert c.stack == d.stack + [c.stack[top]];
    assert c.stack[top] in c.stack;
    assert forall x: nat :: x in c.stack <==> x in d.stack || x == c.stack[top];
    assert forall x: nat :: x in d.popped <==> x in c.popped || x == c.stack[top];
  }

  lemma {:induction false} ReplayOrdered(h: seq<Op>, max: int)
    requires Bounded(h, max)
    ensures Ordered(Replay(h), Pushes(h))
    ensures |Replay(h).stack| == Level(h) <= max && |Replay(h).popped| == Pops(h)
  {
    assert h[..|h|] == h;
    if h != [] {
      var g := h[..|h| - 1];
      BoundedPrefix(h, max);
      ReplayOrdered(g, max);
      if h[|h| - 1] == Push {
        PushKeepsOrdered(Replay(g), Pushes(g));
      } else {
        PopKeepsOrdered(Replay(g), Pushes(g));
      }
    }
  }

  /** The moment at which the `j`-th consumed item was on top of the stack. */
  lemma {:induction false} BeforePop(h: seq<Op>, max: int, j: nat) returns (g: seq<Op>)
    requires Bounded(h, max) && j < |Replay(h).popped|
    ensures g <= h && Bounded(g, max)
    ensures Replay(g).popped == Replay(h).popped[..j]
    ensures Replay(g).stack != [] && Replay(g).stack[|Replay(g).stack| - 1] == Replay(h).popped[j]
  {
    var f := h[..|h| - 1];
    BoundedPrefix(h, max);
    if j < |Replay(f).popped| {
      g := BeforePop(f, max, j);
      assert Replay(f).popped[..j] == Replay(h).popped[..j];
    } else {
      g := f;
    }
  }

  /** Last in, first out: when an item comes out, every younger item produced
      before some earlier consumed item is out already. */
  lemma YoungerOutFirst(h: seq<Op>, max: int, i: nat, j: nat, b: nat)
    requires Bounded(h, max) && i < j < |Replay(h).popped|
    requires Replay(h).popped[j] < b < Replay(h).popped[i]
    ensures b in Replay(h).popped[..j]
  {
    var g := BeforePop(h, max, j);
    ReplayOrdered(g, max);
    assert Replay(h).popped[..j][i] == Replay(h).popped[i];
  }

  /** No run consumes c, then a, then b with a < b < c. */
  lemma NoCABOrder(h: seq<Op>, max: int, i: nat, j: nat, k: nat)
    requires Bounded(h, max) && i < j < k < |Replay(h).popped|
    ensures var out := Replay(h).popped; !(out[j] < out[k] < out[i])
  {
    ReplayOrdered(h, max);
    if Replay(h).popped[j] < Replay(h).popped[k] < Replay(h).popped[i] {
      YoungerOutFirst(h, max, i, j, Replay(h).popped[k]);
    }
  }

  /** The items older than the `i`-th consumed one that come out after it. */
  function OlderAfter(out: seq<nat>, i: nat): set<nat>
    requires i < |out|
  {
    set k | i < k < |out| && out[k] < out[i] :: out[k]
  }

  /** Overtaking is bounded by the capacity: at most `max - 1` older items are
      consumed after any item. */
  lemma FewOlderAfter(h: seq<Op>, max: int, i: nat)
    requires Bounded(h, max) && i < |Replay(h).popped|
    ensures |OlderAfter(Replay(h).popped, i)| <= max - 1
  {
    var out := Replay(h).popped;
    var g := BeforePop(h, max, i);
    ReplayOrdered(g, max);
    ReplayOrdered(h, max);
    var below := Replay(g).stack[..|Replay(g).stack| - 1];
    assert Replay(g).stack == below + [out[i]];
    forall x | x in OlderAfter(out, i) ensures x in below {
      assert x !in out[..i];
    }
    CoverSize(below, OlderAfter(out, i));
  }

  // ---------------------------------------------------------------------------
  // An array and an output that follow a history
  // ---------------------------------------------------------------------------

  /** `buf` holds the characters of the stack that `h` leaves, bottom first, and
      `out` the characters of the items that `h` takes out, in order. */
  ghost predicate Follows(m: Params, h: seq<Op>, buf: seq<char>, out: seq<char>) {
    var r := Replay(h);
    && Bounded(h, m.max) && |buf| == m.max
    && |r.stack| == Level(h) && |out| == |r.popped|
    && (forall k :: 0 <= k < |r.stack| ==> k < |buf| && r.stack[k] < m.N() && buf[k] == m.input[r.stack[k]])
    && (forall k :: 0 <= k < |r.popped| ==> r.popped[k] < m.N() && out[k] == m.input[r.popped[k]])
  }

  lemma FollowsNothing(m: Params)
    requires m.Valid()
    ensures Follows(m, [], m.junk, [])
  {
    var h: seq<Op> := [];
    assert h[..0] == h;
  }

  lemma FollowsPush(m: Params, h: seq<Op>, buf: seq<char>, out: seq<char>)
    requires Follows(m, h, buf, out) && 0 <= Level(h) < m.max && Pushes(h) < m.N()
    ensures Follows(m, h + [Push], buf[Level(h) := m.input[Pushes(h)]], out)
  {
    Snoc(h, Push);
    BoundedSnoc(h, Push, m.max);
    assert Replay(h + [Push]) == PushOn(Replay(h), Pushes(h));
  }

  lemma FollowsPop(m: Params, h: seq<Op>, buf: seq<char>, out: seq<char>)
    requires Follows(m, h, buf, out) && 0 < Level(h) <= m.max
    ensures Follows(m, h + [Pop], buf, out + [buf[Level(h) - 1]])
  {
    Snoc(h, Pop);
    BoundedSnoc(h, Pop, m.max);
    assert Replay(h + [Pop]) == PopOff(Replay(h));
  }

  // ---------------------------------------------------------------------------
  // The consumption orders of `n` items, exactly
  // ---------------------------------------------------------------------------

  ghost predicate Arrangement(order: seq<nat>, n: nat) {
    && |order| == n && (forall i :: 0 <= i < n ==> order[i] < n)
    && (forall i, j :: 0 <= i < j < n ==> order[i] != order[j])
    && (forall x: nat :: x < n ==> x in order)
  }

  ghost predicate AvoidsCAB(order: seq<nat>) {
    forall i, j, k :: 0 <= i < j < k < |order| ==> !(order[j] < order[k] < order[i])
  }

  ghost predicate OvertakesWithin(order: seq<nat>, max: int) {
    forall i :: 0 <= i < |order| ==> |OlderAfter(order, i)| < max
  }

  /** The orders in which a session of `n` items can be consumed. */
  ghost predicate Consumable(order: seq<nat>, n: nat, max: int) {
    exists h :: Complete(h, n, max) && Replay(h).popped == order
  }

  lemma ConsumptionOrders(h: seq<Op>, n: nat, max: int)
    requires Complete(h, n, max)
    ensures var out := Replay(h).popped;
      Arrangement(out, n) && AvoidsCAB(out) && OvertakesWithin(out, max)
  {
    ReplayOrdered(h, max);
    var out := Replay(h).popped;
    forall i, j, k | 0 <= i < j < k < |out| ensures !(out[j] < out[k] < out[i]) {
      NoCABOrder(h, max, i, j, k);
    }
    forall i | 0 <= i < |out| ensures |OlderAfter(out, i)| < max {
      FewOlderAfter(h, max, i);
    }
  }

  /** The items younger than every consumed one, and not yet produced at `next`. */
  function Upcoming(next: nat, x: nat): seq<nat>
    requires next <= x
  {
    seq(x - next, (k: nat) => next + k)
  }

  /** Push items until `x` is on top. */
  lemma {:induction false} PushUpTo(g: seq<Op>, max: int, x: nat) returns (h: seq<Op>)
    requires Bounded(g, max) && Pushes(g) <= x + 1 && Level(g) + x + 1 - Pushes(g) <= max
    ensures Bounded(h, max) && Pushes(h) == x + 1 && Replay(h).popped == Replay(g).popped
    ensures Pushes(g) <= x ==> Replay(h).stack != [] && Replay(h).stack[|Replay(h).stack| - 1] == x
    ensures Pushes(g) == x + 1 ==> h == g
    decreases x + 1 - Pushes(g)
  {
    if Pushes(g) == x + 1 {
      h := g;
    } else {
      Snoc(g, Push);
      assert g[..|g|] == g;
      BoundedSnoc(g, Push, max);
      assert Replay(g + [Push]) == PushOn(Replay(g), Pushes(g));
      h := PushUpTo(g + [Push], max, x);
    }
  }

  /** What the greedy schedule has reached after `k` items. */
  ghost predicate Reached(g: seq<Op>, order: seq<nat>, max: int, k: nat)
    requires k <= |order|
  {
    && Bounded(g, max) && Replay(g).popped == order[..k]
    && (Pushes(g) == 0 || (Pushes(g) - 1) in order[..k])
  }

  /** The items in the stack and those still to be pushed before `x`. */
  function Waiting(g: seq<Op>, x: nat): seq<nat>
    requires Pushes(g) <= x
  {
    Replay(g).stack + Upcoming(Pushes(g), x)
  }

  lemma WaitingIsDistinct(g: seq<Op>, max: int, x: nat)
    requires Bounded(g, max) && Pushes(g) <= x
    ensures |Waiting(g, x)| == Level(g) + x - Pushes(g)
    ensures forall i, j :: 0 <= i < j < |Waiting(g, x)| ==> Waiting(g, x)[i] != Waiting(g, x)[j]
    ensures forall i :: 0 <= i < |Waiting(g, x)| ==> Waiting(g, x)[i] < x && Waiting(g, x)[i] !in Replay(g).popped
  {
    ReplayOrdered(g, max);
    forall i | 0 <= i < |Replay(g).stack| ensures Waiting(g, x)[i] in Replay(g).stack {
    }
  }

  /** They all come out after `x`, so there is room for them. */
  lemma RoomFor(g: seq<Op>, order: seq<nat>, n: nat, max: int, k: nat)
    requires k < |order| && Arrangement(order, n) && OvertakesWithin(order, max) && Reached(g, order, max, k)
    requires Pushes(g) <= order[k]
    ensures Level(g) + order[k] + 1 - Pushes(g) <= max
  {
    var waiting := Waiting(g, order[k]);
    WaitingIsDistinct(g, max, order[k]);
    forall i | 0 <= i < |waiting| ensures waiting[i] in OlderAfter(order, k) {
      var q := Later(order, k, waiting[i]);
    }
    DistinctSize(waiting, OlderAfter(order, k));
  }

  lemma Later(order: seq<nat>, k: nat, x: nat) returns (q: nat)
    requires k <= |order| && x in order && x !in order[..k]
    ensures k <= q < |order| && order[q] == x
  {
    forall i | 0 <= i < k ensures order[i] != x {
      assert order[..k][i] == order[i];
    }
    q :| 0 <= q < |order| && order[q] == x;
  }

  /** Below the youngest consumed item, the next one is the youngest left. */
  lemma NoneYounger(order: seq<nat>, k: nat, b: nat, youngest: nat)
    requires AvoidsCAB(order) && k < |order|
    requires youngest in order[..k] && b in order && b !in order[..k] && b < youngest
    ensures b <= order[k]
  {
    var i :| 0 <= i < k && order[..k][i] == youngest;
    assert order[i] == youngest;
    var q := Later(order, k, b);
  }

  /** An item that has been produced and is consumed next is on top. */
  lemma NextIsOnTop(g: seq<Op>, order: seq<nat>, n: nat, max: int, k: nat)
    requires k < |order| && Arrangement(order, n) && AvoidsCAB(order) && Reached(g, order, max, k)
    requires order[k] < Pushes(g)
    ensures Replay(g).stack != [] && Replay(g).stack[|Replay(g).stack| - 1] == order[k]
  {
    var stack, x := Replay(g).stack, order[k];
    var youngest := Pushes(g) - 1;
    ReplayOrdered(g, max);
    forall b | b in stack ensures b <= x {
      assert b != youngest;
      NoneYounger(order, k, b, youngest);
    }
    assert x !in order[..k];
    assert x in stack;
    assert stack[|stack| - 1] in stack;
  }

  lemma PopTop(h: seq<Op>, max: int, x: nat)
    requires Bounded(h, max)
    requires Replay(h).stack != [] && Replay(h).stack[|Replay(h).stack| - 1] == x
    ensures Bounded(h + [Pop], max) && Pushes(h + [Pop]) == Pushes(h)
    ensures Replay(h + [Pop]).popped == Replay(h).popped + [x]
  {
    ReplayOrdered(h, max);
    assert h[..|h|] == h;
    Snoc(h, Pop);
    BoundedSnoc(h, Pop, max);
    assert Replay(h + [Pop]) == PopOff(Replay(h));
  }

  /** Push just far enough to have the next item on top. */
  lemma BringUp(f: seq<Op>, order: seq<nat>, n: nat, max: int, k: nat) returns (h: seq<Op>)
    requires k < |order| && Reached(f, order, max, k)
    requires Arrangement(order, n) && AvoidsCAB(order) && OvertakesWithin(order, max)
    ensures Bounded(h, max) && Replay(h).popped == order[..k]
    ensures Replay(h).stack != [] && Replay(h).stack[|Replay(h).stack| - 1] == order[k]
    ensures Pushes(h) == order[k] + 1 || (Pushes(h) > 0 && (Pushes(h) - 1) in order[..k])
  {
    h := f;
    if Pushes(f) <= order[k] {
      RoomFor(f, order, n, max, k);
      h := PushUpTo(f, max, order[k]);
    } else {
      NextIsOnTop(f, order, n, max, k);
    }
  }

  /** One round of the greedy schedule. */
  lemma GreedyRound(f: seq<Op>, order: seq<nat>, n: nat, max: int, k: nat) returns (g: seq<Op>)
    requires k < |order| && Reached(f, order, max, k)
    requires Arrangement(order, n) && AvoidsCAB(order) && OvertakesWithin(order, max)
    ensures Reached(g, order, max, k + 1)
  {
    var h := BringUp(f, order, n, max, k);
    PopTop(h, max, order[k]);
    g := h + [Pop];
    assert order[..k + 1] == order[..k] + [order[k]];
  }

  lemma {:induction false} Greedy(order: seq<nat>, n: nat, max: int, k: nat) returns (g: seq<Op>)
    requires k <= |order| && max >= 0
    requires Arrangement(order, n) && AvoidsCAB(order) && OvertakesWithin(order, max)
    ensures Reached(g, order, max, k)
    decreases k
  {
    if k == 0 {
      g := [];
      assert g[..0] == g;
    } else {
      var f := Greedy(order, n, max, k - 1);
      g := GreedyRound(f, order, n, max, k - 1);
    }
  }

  /** Exactly the arrangements without the pattern c, a, b (a < b < c) in which
      no item overtakes `max` older ones can be consumed. */
  lemma ConsumableExactly(order: seq<nat>, n: nat, max: int)
    requires max >= 0
    ensures Consumable(order, n, max)
       <==> Arrangement(order, n) && AvoidsCAB(order) && OvertakesWithin(order, max)
  {
    if Consumable(order, n, max) {
      var h :| Complete(h, n, max) && Replay(h).popped == order;
      ConsumptionOrders(h, n, max);
    }
    if Arrangement(order, n) && AvoidsCAB(order) && OvertakesWithin(order, max) {
      var h := Greedy(order, n, max, n);
      assert order[..n] == order;
      ReplayOrdered(h, max);
      if n > 0 { assert (n - 1) in Replay(h).popped; }
      assert Complete(h, n, max);
    }
  }
}
