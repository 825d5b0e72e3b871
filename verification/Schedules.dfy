/** Runs of a concurrent program under an arbitrary scheduler.  A program is a
    total step function: `step(s, a)` is the state after the scheduler chooses
    `a`, and choosing somebody who cannot move leaves the state as it is. */
module Schedules {

  function Fold<S, A>(step: (S, A) -> S, s: S, acts: seq<A>): S
    decreases acts
  {
    if acts == [] then s else Fold(step, step(s, acts[0]), acts[1..])
  }

  /** How many choices of a schedule really change the state. */
  function Moves<S(==), A>(step: (S, A) -> S, s: S, acts: seq<A>): nat
    decreases acts
  {
    if acts == [] then 0
    else (if step(s, acts[0]) != s then 1 else 0) + Moves(step, step(s, acts[0]), acts[1..])
  }

  lemma {:induction false} FoldSplit<S, A>(step: (S, A) -> S, s: S, a: seq<A>, b: seq<A>)
    ensures Fold(step, s, a + b) == Fold(step, Fold(step, s, a), b)
    decreases a
  {
    if a == [] {
      assert a + b == b;
    } else {
      assert (a + b)[1..] == a[1..] + b;
      FoldSplit(step, step(s, a[0]), a[1..], b);
    }
  }

  lemma FoldSnoc<S, A>(step: (S, A) -> S, s: S, acts: seq<A>, a: A)
    ensures Fold(step, s, acts + [a]) == step(Fold(step, s, acts), a)
  {
    FoldSplit(step, s, acts, [a]);
    assert [a][1..] == [];
  }

  lemma {:induction false} MovesSplit<S, A>(step: (S, A) -> S, s: S, a: seq<A>, b: seq<A>)
    ensures Moves(step, s, a + b) == Moves(step, s, a) + Moves(step, Fold(step, s, a), b)
    decreases a
  {
    if a == [] {
      assert a + b == b;
    } else {
      assert (a + b)[1..] == a[1..] + b;
      MovesSplit(step, step(s, a[0]), a[1..], b);
    }
  }

  /** The count starts at 0 and goes up by one with each choice that changes the
      state reached so far. */
  lemma MovesSnoc<S, A>(step: (S, A) -> S, s: S, acts: seq<A>, a: A)
    ensures Moves(step, s, []) == 0
    ensures var t := Fold(step, s, acts);
      Moves(step, s, acts + [a]) == Moves(step, s, acts) + if step(t, a) != t then 1 else 0
  {
    MovesSplit(step, s, acts, [a]);
    assert [a][1..] == [];
  }

  /** An invariant of every step holds after every schedule. */
  lemma {:induction false} FoldKeeps<S(!new), A(!new)>(step: (S, A) -> S, inv: S -> bool, s: S, acts: seq<A>)
    requires inv(s)
    requires forall t, a :: inv(t) ==> inv(step(t, a))
    ensures inv(Fold(step, s, acts))
    decreases acts
  {
    if acts != [] {
      FoldKeeps(step, inv, step(s, acts[0]), acts[1..]);
    }
  }

  /** The same for schedules restricted to some choices. */
  lemma {:induction false} FoldKeepsFor<S(!new), A(!new)>(
    step: (S, A) -> S, inv: S -> bool, allowed: A -> bool, s: S, acts: seq<A>)
    requires inv(s)
    requires forall a :: a in acts ==> allowed(a)
    requires forall t, a :: inv(t) && allowed(a) ==> inv(step(t, a))
    ensures inv(Fold(step, s, acts))
    decreases acts
  {
    if acts != [] {
      assert acts[0] in acts;
      FoldKeepsFor(step, inv, allowed, step(s, acts[0]), acts[1..]);
    }
  }

  /** A rank that every counted move lowers bounds the number of moves. */
  lemma {:induction false} MovesBounded<S(!new), A(!new)>(
    step: (S, A) -> S, inv: S -> bool, rank: S -> int, counted: A -> bool, s: S, acts: seq<A>)
    requires inv(s)
    requires forall a :: a in acts ==> counted(a)
    requires forall t, a :: inv(t) ==> inv(step(t, a))
    requires forall t :: inv(t) ==> rank(t) >= 0
    requires forall t, a :: inv(t) && counted(a) && step(t, a) != t ==> rank(step(t, a)) < rank(t)
    ensures Moves(step, s, acts) <= rank(s)
    decreases acts
  {
    if acts != [] {
      assert acts[0] in acts;
      MovesBounded(step, inv, rank, counted, step(s, acts[0]), acts[1..]);
    }
  }

  /** The scheduler choosing `a` again and again. */
  function Times<A>(a: A, k: nat): seq<A> { if k == 0 then [] else [a] + Times(a, k - 1) }

  function Repeat<S, A>(step: (S, A) -> S, s: S, a: A, k: nat): S
    decreases k
  {
    if k == 0 then s else Repeat(step, step(s, a), a, k - 1)
  }

  lemma {:induction false} RepeatSplit<S, A>(step: (S, A) -> S, s: S, a: A, k: nat, m: nat)
    ensures Repeat(step, s, a, k + m) == Repeat(step, Repeat(step, s, a, k), a, m)
    decreases k
  {
    if k > 0 { RepeatSplit(step, step(s, a), a, k - 1, m); }
  }

  lemma {:induction false} FoldTimes<S, A>(step: (S, A) -> S, s: S, a: A, k: nat)
    ensures Fold(step, s, Times(a, k)) == Repeat(step, s, a, k)
    ensures forall b :: b in Times(a, k) ==> b == a
    decreases k
  {
    if k > 0 {
      assert Times(a, k)[1..] == Times(a, k - 1);
      FoldTimes(step, step(s, a), a, k - 1);
    }
  }
}
