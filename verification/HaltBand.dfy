/** Two threads share `count`.  Thread one waits while `count` lies in the halt
    band [halt1, halt2]; thread two signals from outside the band.  The waiting
    and signalling happen under one mutex, the increments under another, so
    `count` can change while thread one decides whether to wait.

    A schedule is a sequence of choices of who moves next.  Choosing a thread
    that is blocked or has returned changes nothing, so every schedule is a run. */
module HaltBand {
  import opened Schedules

  datatype Config = Config(halt1: int, halt2: int, done: int) {
    /** The smallest count at which some thread's stop test can succeed: every
        thread increments once before it tests. */
    function Goal(): int { if done < 1 then 1 else done }

    predicate InBand(v: int) { halt1 <= v <= halt2 }

    /** The configurations in which a wakeup can be lost. */
    predicate CanStrand() { halt1 <= halt2 && halt1 <= Goal() <= halt2 + 1 }
  }

  datatype Thread = One | Two

  datatype Owner = Free | HeldByOne | HeldByTwo

  datatype Pc =
    | LockCond | TestLow | TestHigh | CallWait | Asleep | Woken | Signal | UnlockCond
    | LockCount | Load | Store | Print | UnlockCount | TestDone | Returned

  datatype Act = RunOne | RunTwo | Spurious

  datatype Line = Line(thread: Thread, value: int)

  /** A write of `count`, by thread one, or by thread two in a lap in which it has
      or has not signalled. */
  datatype Write = ByOne | ByTwo(signalled: bool)

  function Writer(w: Write): Thread { if w.ByOne? then One else Two }

  /** `lap` and `stores` are history variables: whether thread two has signalled
      in its current lap, and who performed each write of `count`.  `out` is what
      the two threads have printed. */
  datatype State = State(
    count: int,
    cond: Owner,
    mutex: Owner,
    pc1: Pc, pc2: Pc,
    reg1: int, reg2: int,
    lap: bool,
    stores: seq<Write>,
    out: seq<Line>)

  const INIT := State(0, Free, Free, LockCond, LockCond, 0, 0, false, [], [])

  predicate Enabled(s: State, a: Act) {
    match a
    case RunOne =>
      && s.pc1 != Returned && s.pc1 != Asleep && s.pc1 != Signal
      && (s.pc1 == LockCond || s.pc1 == Woken ==> s.cond == Free)
      && (s.pc1 == LockCount ==> s.mutex == Free)
    case RunTwo =>
      && s.pc2 != Returned && s.pc2 != CallWait && s.pc2 != Asleep && s.pc2 != Woken
      && (s.pc2 == LockCond ==> s.cond == Free)
      && (s.pc2 == LockCount ==> s.mutex == Free)
    case Spurious => s.pc1 == Asleep
  }

  function StepOne(c: Config, s: State): State {
    match s.pc1
    case LockCond => s.(cond := HeldByOne, pc1 := TestLow)
    case TestLow => s.(pc1 := if s.count >= c.halt1 then TestHigh else UnlockCond)
    case TestHigh => s.(pc1 := if s.count <= c.halt2 then CallWait else UnlockCond)
    case CallWait => s.(cond := Free, pc1 := Asleep)
    case Woken => s.(cond := HeldByOne, pc1 := TestLow)
    case UnlockCond => s.(cond := Free, pc1 := LockCount)
    case LockCount => s.(mutex := HeldByOne, pc1 := Load)
    case Load => s.(reg1 := s.count, pc1 := Store)
    case Store => s.(count := s.reg1 + 1, stores := s.stores + [ByOne], pc1 := Print)
    case Print => s.(out := s.out + [Line(One, s.count)], pc1 := UnlockCount)
    case UnlockCount => s.(mutex := Free, pc1 := TestDone)
    case TestDone => s.(pc1 := if s.count >= c.done then Returned else LockCond)
    case _ => s
  }

  function StepTwo(c: Config, s: State): State {
    match s.pc2
    case LockCond => s.(cond := HeldByTwo, lap := false, pc2 := TestLow)
    case TestLow => s.(pc2 := if s.count < c.halt1 then Signal else TestHigh)
    case TestHigh => s.(pc2 := if s.count > c.halt2 then Signal else UnlockCond)
    case Signal => s.(pc1 := if s.pc1 == Asleep then Woken else s.pc1, lap := true, pc2 := UnlockCond)
    case UnlockCond => s.(cond := Free, pc2 := LockCount)
    case LockCount => s.(mutex := HeldByTwo, pc2 := Load)
    case Load => s.(reg2 := s.count, pc2 := Store)
    case Store => s.(count := s.reg2 + 1, stores := s.stores + [ByTwo(s.lap)], pc2 := Print)
    case Print => s.(out := s.out + [Line(Two, s.count)], pc2 := UnlockCount)
    case UnlockCount => s.(mutex := Free, pc2 := TestDone)
    case TestDone => s.(pc2 := if s.count >= c.done then Returned else LockCond)
    case _ => s
  }

  function Step(c: Config, s: State, a: Act): State {
    if !Enabled(s, a) then s
    else match a
      case RunOne => StepOne(c, s)
      case RunTwo => StepTwo(c, s)
      case Spurious => s.(pc1 := Woken)
  }

  function Stepper(c: Config): (State, Act) -> State { (s, a) => Step(c, s, a) }

  function Run(c: Config, acts: seq<Act>): State { Fold(Stepper(c), INIT, acts) }

  predicate Finished(s: State) { s.pc1 == Returned && s.pc2 == Returned }

  /** No thread can move, unless a spurious wakeup comes to help. */
  predicate Quiescent(s: State) { !Enabled(s, RunOne) && !Enabled(s, RunTwo) }

  predicate Stranded(s: State) { s.pc1 == Asleep && s.pc2 == Returned }

  // ---------------------------------------------------------------------------
  // What every step keeps
  // ---------------------------------------------------------------------------

  ghost predicate HoldsCond(pc: Pc) { pc in {TestLow, TestHigh, CallWait, Signal, UnlockCond} }

  ghost predicate HoldsMutex(pc: Pc) { pc in {Load, Store, Print, UnlockCount} }

  /** The thread is past a stop test (or its start) and will increment again. */
  ghost predicate Committed(pc: Pc) { pc !in {Print, UnlockCount, TestDone, Returned} }

  ghost predicate Locking(s: State) {
    && s.pc1 != Signal && s.pc2 !in {CallWait, Asleep, Woken}
    && (s.cond == HeldByOne <==> HoldsCond(s.pc1)) && (s.cond == HeldByTwo <==> HoldsCond(s.pc2))
    && (s.mutex == HeldByOne <==> HoldsMutex(s.pc1)) && (s.mutex == HeldByTwo <==> HoldsMutex(s.pc2))
    && (s.pc1 == Store ==> s.reg1 == s.count) && (s.pc2 == Store ==> s.reg2 == s.count)
  }

  ghost predicate Printing(s: State) {
    && s.count == |s.stores|
    && |s.out| == s.count - (if s.pc1 == Print || s.pc2 == Print then 1 else 0)
    && (forall i :: 0 <= i < |s.out| ==> s.out[i] == Line(Writer(s.stores[i]), i + 1))
    && (s.pc1 == Print ==> s.count >= 1 && s.stores[s.count - 1].ByOne?)
    && (s.pc2 == Print ==> s.count >= 1 && s.stores[s.count - 1].ByTwo?)
  }

  ghost predicate Stopping(c: Config, s: State) {
    && s.count + (if Committed(s.pc1) then 1 else 0) + (if Committed(s.pc2) then 1 else 0) <= c.Goal() + 1
    && (!Committed(s.pc1) || !Committed(s.pc2) ==> s.count >= 1)
    && (!Committed(s.pc1) && !Committed(s.pc2) ==> s.count >= 2)
    && (s.pc1 == Returned || s.pc2 == Returned ==> s.count >= c.done)
  }

  /** While thread one is about to wait or waits, `count` has not left the band,
      or has left it by one and thread two still has to notice; thread two signals
      to a waiting thread one only after that. */
  ghost predicate Waiting(c: Config, s: State) {
    && (s.pc1 in {TestHigh, CallWait, Asleep} ==> c.halt1 <= s.count)
    && (s.pc1 in {CallWait, Asleep} ==>
          && c.halt1 <= c.halt2
          && (|| s.count <= c.halt2
              || (s.count == c.halt2 + 1
                  && s.pc2 in {Print, UnlockCount, TestDone, LockCond, TestLow, TestHigh, Signal, Returned})))
    && (s.pc1 == Asleep && s.pc2 == Signal ==> s.count > c.halt2)
  }

  ghost predicate OneInBand(c: Config, stores: seq<Write>, i: int) {
    0 <= i < |stores| && c.InBand(i) && stores[i].ByOne?
  }

  ghost predicate Banding(c: Config, s: State) {
    && (forall i, j :: OneInBand(c, s.stores, i) && OneInBand(c, s.stores, j) ==> i == j)
    && (s.pc1 in {UnlockCond, LockCount, Load, Store} ==>
          forall i :: OneInBand(c, s.stores, i) ==> s.count > c.halt2)
  }

  ghost predicate Inv(c: Config, s: State) {
    Locking(s) && Printing(s) && Stopping(c, s) && Waiting(c, s) && Banding(c, s)
  }

  lemma StepKeepsLocking(c: Config, s: State, a: Act)
    requires Locking(s)
    ensures Locking(Step(c, s, a))
  {
  }

  lemma StepTwoKeepsPrinting(c: Config, s: State)
    requires Locking(s) && Printing(s)
    ensures Printing(Step(c, s, RunTwo))
  {
  }

  lemma StepKeepsPrinting(c: Config, s: State, a: Act)
    requires Locking(s) && Printing(s)
    ensures Printing(Step(c, s, a))
  {
    if a == RunTwo { StepTwoKeepsPrinting(c, s); }
  }

  lemma StepKeepsStopping(c: Config, s: State, a: Act)
    requires Locking(s) && Printing(s) && Stopping(c, s)
    ensures Stopping(c, Step(c, s, a))
  {
  }

  lemma StepKeepsWaiting(c: Config, s: State, a: Act)
    requires Locking(s) && Waiting(c, s)
    ensures Waiting(c, Step(c, s, a))
  {
  }

  /** What a step does to the history of the writes, and to thread one. */
  lemma Writes(c: Config, s: State, a: Act)
    requires Locking(s)
    ensures var t := Step(c, s, a);
      && t.count >= s.count
      && t.stores == s.stores + (if a == RunOne && s.pc1 == Store then [ByOne]
                                 else if a == RunTwo && s.pc2 == Store then [ByTwo(s.lap)] else [])
      && (InFlight(t.pc1) && !InFlight(s.pc1) ==> !c.InBand(s.count))
      && (!Committed(t.pc1) ==> !Committed(s.pc1) || (a == RunOne && s.pc1 == Store))
  {
    match a case RunOne => case RunTwo => case Spurious =>
  }

  lemma StepKeepsBanding(c: Config, s: State, a: Act)
    requires Inv(c, s)
    ensures Banding(c, Step(c, s, a))
  {
    var t := Step(c, s, a);
    Writes(c, s, a);
    forall i | OneInBand(c, t.stores, i)
      ensures OneInBand(c, s.stores, i) || (i == s.count && s.pc1 == Store && a == RunOne)
    {
    }
  }

  lemma StepKeepsInv(c: Config, s: State, a: Act)
    requires Inv(c, s)
    ensures Inv(c, Step(c, s, a))
  {
    StepKeepsLocking(c, s, a);
    StepKeepsPrinting(c, s, a);
    StepKeepsStopping(c, s, a);
    StepKeepsWaiting(c, s, a);
    StepKeepsBanding(c, s, a);
  }

  lemma RunReaches(c: Config, acts: seq<Act>)
    ensures Inv(c, Run(c, acts))
  {
    forall s, a | Inv(c, s) ensures Inv(c, Stepper(c)(s, a)) {
      StepKeepsInv(c, s, a);
    }
    FoldKeeps(Stepper(c), s => Inv(c, s), INIT, acts);
  }

  // ---------------------------------------------------------------------------
  // Every run ends: a bound on the moves of a run without spurious wakeups
  // ---------------------------------------------------------------------------

  /** An upper bound on the steps thread one can make before its next increment. */
  function Rank1(pc: Pc): nat {
    match pc
    case Print => 13 case UnlockCount => 12 case TestDone => 11
    case LockCond => 9 case Woken => 9 case TestLow => 8 case TestHigh => 7
    case CallWait => 6 case Asleep => 5
    case UnlockCond => 4 case LockCount => 3 case Load => 2 case Store => 1
    case Signal => 0 case Returned => 0
  }

  /** The same for thread two; its signal pays for the four ranks thread one gains. */
  function Rank2(pc: Pc): nat {
    match pc
    case Print => 15 case UnlockCount => 14 case TestDone => 13
    case LockCond => 12 case TestLow => 11 case TestHigh => 10 case Signal => 9
    case UnlockCond => 4 case LockCount => 3 case Load => 2 case Store => 1
    case CallWait => 0 case Asleep => 0 case Woken => 0 case Returned => 0
  }

  function Rank(c: Config, s: State): int {
    20 * (c.Goal() + 1 - s.count) + Rank1(s.pc1) + Rank2(s.pc2)
  }

  lemma StepOneLowersRank(c: Config, s: State)
    requires Locking(s) && Enabled(s, RunOne)
    ensures Rank(c, Step(c, s, RunOne)) < Rank(c, s)
  {
  }

  lemma StepTwoLowersRank(c: Config, s: State)
    requires Locking(s) && Enabled(s, RunTwo)
    ensures Rank(c, Step(c, s, RunTwo)) < Rank(c, s)
  {
  }

  lemma RankIsNat(c: Config, s: State)
    requires Inv(c, s)
    ensures Rank(c, s) >= 0
  {
  }

  /** Every step a thread can take lowers the rank; in particular it changes the
      state, so that `Moves` counts it. */
  lemma StepLowersRank(c: Config, s: State, a: Act)
    requires Inv(c, s) && a != Spurious && Enabled(s, a)
    ensures Rank(c, Step(c, s, a)) < Rank(c, s) && Step(c, s, a) != s
  {
    if a == RunOne { StepOneLowersRank(c, s); } else { StepTwoLowersRank(c, s); }
  }

  /** Termination: no scheduling makes more than 20 * (Goal + 1) + 21 moves. */
  lemma RunsEnd(c: Config, acts: seq<Act>)
    requires Spurious !in acts
    ensures Moves(Stepper(c), INIT, acts) <= 20 * (c.Goal() + 1) + 21
  {
    forall s, a | Inv(c, s)
      ensures Inv(c, Stepper(c)(s, a)) && Rank(c, s) >= 0
      ensures a != Spurious && Stepper(c)(s, a) != s ==> Rank(c, Stepper(c)(s, a)) < Rank(c, s)
    {
      StepKeepsInv(c, s, a);
      if a != Spurious && Enabled(s, a) { StepLowersRank(c, s, a); }
    }
    MovesBounded(Stepper(c), s => Inv(c, s), s => Rank(c, s), a => a != Spurious, INIT, acts);
  }

  // ---------------------------------------------------------------------------
  // No lost wakeup, exactly when the configuration allows none
  // ---------------------------------------------------------------------------

  /** When nobody can move, both threads have returned, or thread one sleeps for
      ever and the stop count does not clear the band. */
  lemma Settled(c: Config, s: State)
    requires Inv(c, s) && Quiescent(s)
    ensures Finished(s) || (Stranded(s) && c.CanStrand())
    ensures Finished(s) ==> c.Goal() <= s.count <= c.Goal() + 1
    ensures |s.out| == s.count && forall i :: 0 <= i < s.count ==> s.out[i].value == i + 1
  {
    match s.cond case Free => case HeldByOne => case HeldByTwo =>
    match s.mutex case Free => case HeldByOne => case HeldByTwo =>
  }

  /** In every reachable state (spurious wakeups included) somebody can move,
      unless both threads returned or thread one is asleep for ever. */
  lemma QuiescentStates(c: Config, acts: seq<Act>)
    requires Quiescent(Run(c, acts))
    ensures Finished(Run(c, acts)) || Stranded(Run(c, acts))
  {
    RunReaches(c, acts);
    Settled(c, Run(c, acts));
  }

  /** A thread that waits while the other has returned was left behind by a
      configuration whose stop count does not clear the band. */
  lemma StrandedOnlyIfBandReachesGoal(c: Config, acts: seq<Act>)
    requires Stranded(Run(c, acts))
    ensures c.CanStrand()
  {
    RunReaches(c, acts);
  }

  /** Thread two at the top of its loop while thread one is not moving. */
  ghost predicate AtTop(c: Config, s: State) {
    && s.cond == Free && s.mutex == Free && s.pc2 == LockCond && s.count >= 0
    && (s.pc1 == LockCond || s.pc1 == LockCount || (s.pc1 == Asleep && c.halt1 <= s.count))
  }

  /** Thread two from the top of its loop to the increment; it wakes nobody, if
      thread one sleeps with `count` not past the band. */
  lemma EntryOfTwo(c: Config, s: State) returns (acts: seq<Act>)
    requires AtTop(c, s) && (s.pc1 == Asleep ==> s.count <= c.halt2)
    ensures Spurious !in acts
    ensures var t := Fold(Stepper(c), s, acts);
      t == s.(pc2 := LockCount, lap := s.count < c.halt1 || s.count > c.halt2)
  {
    var step := Stepper(c);
    var s1 := step(s, RunTwo);
    assert s1 == s.(cond := HeldByTwo, lap := false, pc2 := TestLow);
    var s2 := step(s1, RunTwo);
    var s3 := step(s2, RunTwo);
    var s4 := step(s3, RunTwo);
    if s.count >= c.halt1 && s.count > c.halt2 {
      assert s2.pc2 == TestHigh && s3.pc2 == Signal && s4.pc2 == UnlockCond;
      acts := Times(RunTwo, 5);
      FoldTimes(step, s, RunTwo, 5);
      assert Repeat(step, s, RunTwo, 5) == Repeat(step, s1, RunTwo, 4) == Repeat(step, s2, RunTwo, 3);
      assert Repeat(step, s2, RunTwo, 3) == Repeat(step, s3, RunTwo, 2) == Repeat(step, s4, RunTwo, 1);
    } else {
      assert s3.pc2 == UnlockCond;
      acts := Times(RunTwo, 4);
      FoldTimes(step, s, RunTwo, 4);
      assert Repeat(step, s, RunTwo, 4) == Repeat(step, s1, RunTwo, 3) == Repeat(step, s2, RunTwo, 2);
      assert Repeat(step, s2, RunTwo, 2) == Repeat(step, s3, RunTwo, 1) == s4;
    }
  }

  lemma StoreOfTwo(c: Config, s: State)
    requires s.pc2 == LockCount && s.mutex == Free
    ensures var t := Repeat(Stepper(c), s, RunTwo, 3);
      t == s.(mutex := HeldByTwo, pc2 := Print, reg2 := s.count, count := s.count + 1, stores := t.stores)
  {
    var s1 := Step(c, s, RunTwo);
    assert s1 == s.(mutex := HeldByTwo, pc2 := Load);
    var s2 := Step(c, s1, RunTwo);
    assert s2 == s1.(reg2 := s.count, pc2 := Store);
  }

  lemma PrintOfTwo(c: Config, s: State)
    requires s.pc2 == Print
    ensures var t := Repeat(Stepper(c), s, RunTwo, 2); t == s.(out := t.out, mutex := Free, pc2 := TestDone)
  {
    var s1 := Step(c, s, RunTwo);
    assert s1 == s.(out := s1.out, pc2 := UnlockCount);
  }

  /** Thread two from there to its stop test. */
  lemma IncrementOfTwo(c: Config, s: State) returns (acts: seq<Act>)
    requires s.pc2 == LockCount && s.mutex == Free
    ensures Spurious !in acts
    ensures var t := Fold(Stepper(c), s, acts);
      t == s.(pc2 := TestDone, reg2 := s.count, count := s.count + 1, stores := t.stores, out := t.out)
  {
    StoreOfTwo(c, s);
    FoldTimes(Stepper(c), s, RunTwo, 3);
    var t := Fold(Stepper(c), s, Times(RunTwo, 3));
    PrintOfTwo(c, t);
    FoldTimes(Stepper(c), t, RunTwo, 2);
    FoldSplit(Stepper(c), s, Times(RunTwo, 3), Times(RunTwo, 2));
    acts := Times(RunTwo, 3) + Times(RunTwo, 2);
  }

  /** One lap of thread two up to its stop test. */
  lemma ToTestOfTwo(c: Config, s: State) returns (acts: seq<Act>)
    requires AtTop(c, s) && (s.pc1 == Asleep ==> s.count <= c.halt2)
    ensures Spurious !in acts
    ensures var t := Fold(Stepper(c), s, acts);
      && t.count == s.count + 1 && t.cond == Free && t.mutex == Free && t.pc1 == s.pc1 && t.pc2 == TestDone
  {
    acts := EntryOfTwo(c, s);
    var more := IncrementOfTwo(c, Fold(Stepper(c), s, acts));
    FoldSplit(Stepper(c), s, acts, more);
    acts := acts + more;
  }

  lemma LapOfTwo(c: Config, s: State) returns (acts: seq<Act>)
    requires AtTop(c, s) && (s.pc1 == Asleep ==> s.count <= c.halt2)
    ensures Spurious !in acts
    ensures var t := Fold(Stepper(c), s, acts);
      && t.count == s.count + 1 && t.cond == Free && t.mutex == Free && t.pc1 == s.pc1
      && t.pc2 == (if t.count >= c.done then Returned else LockCond)
  {
    acts := ToTestOfTwo(c, s);
    FoldSnoc(Stepper(c), s, acts, RunTwo);
    acts := acts + [RunTwo];
  }

  /** Laps of thread two until `count` is `k`, at most one above the band if
      thread one sleeps. */
  lemma {:induction false} DriveTwo(c: Config, s: State, k: int) returns (acts: seq<Act>)
    requires AtTop(c, s) && s.count <= k <= c.Goal() && (s.pc1 == Asleep ==> k <= c.halt2 + 1)
    ensures Spurious !in acts
    ensures var t := Fold(Stepper(c), s, acts);
      && t.count == k && t.cond == Free && t.mutex == Free && t.pc1 == s.pc1
      && t.pc2 == (if k > s.count && k >= c.done then Returned else LockCond)
    decreases k - s.count
  {
    if s.count == k {
      acts := [];
    } else {
      acts := LapOfTwo(c, s);
      var t := Fold(Stepper(c), s, acts);
      if t.count < k {
        var more := DriveTwo(c, t, k);
        FoldSplit(Stepper(c), s, acts, more);
        acts := acts + more;
      }
    }
  }

  /** Thread one takes the lock, sees `count` in the band and goes to sleep. */
  lemma OneFallsAsleep(c: Config, s: State)
    requires s.pc1 == LockCond && s.cond == Free && c.InBand(s.count)
    ensures var t := Fold(Stepper(c), s, Times(RunOne, 4));
      t.pc1 == Asleep && t.pc2 == s.pc2 && t.cond == Free && t.mutex == s.mutex && t.count == s.count
  {
    FoldTimes(Stepper(c), s, RunOne, 4);
    var s1 := Step(c, s, RunOne);
    var s2 := Step(c, s1, RunOne);
    var s3 := Step(c, s2, RunOne);
    assert Repeat(Stepper(c), s, RunOne, 4) == Repeat(Stepper(c), s2, RunOne, 2) == Step(c, s3, RunOne);
  }

  /** A schedule that strands thread one, for every configuration that allows it:
      thread two climbs to the band, thread one falls asleep, thread two climbs
      on and returns without having left the band before its last lap. */
  lemma StrandingSchedule(c: Config) returns (acts: seq<Act>)
    requires c.CanStrand()
    ensures Spurious !in acts && Stranded(Run(c, acts))
  {
    var k := if c.halt1 < 0 then 0 else c.halt1;
    acts := DriveTwo(c, INIT, k);
    var s := Run(c, acts);
    OneFallsAsleep(c, s);
    FoldSplit(Stepper(c), INIT, acts, Times(RunOne, 4));
    acts := acts + Times(RunOne, 4);
    var t := Run(c, acts);
    if t.pc2 != Returned {
      var rest := DriveTwo(c, t, c.Goal());
      FoldSplit(Stepper(c), INIT, acts, rest);
      acts := acts + rest;
    }
  }

  ghost predicate CanLoseWakeup(c: Config) {
    exists acts :: Spurious !in acts && Stranded(Run(c, acts))
  }

  /** The exact condition under which the program can hang. */
  lemma LostWakeupExactly(c: Config)
    ensures CanLoseWakeup(c) <==> c.CanStrand()
  {
    if c.CanStrand() {
      var acts := StrandingSchedule(c);
    }
    if CanLoseWakeup(c) {
      var acts :| Spurious !in acts && Stranded(Run(c, acts));
      StrandedOnlyIfBandReachesGoal(c, acts);
    }
  }

  /** A band that ends at least two below the stop count is safe. */
  lemma ClearBandIsSafe(c: Config)
    requires 0 <= c.halt1 <= c.halt2 && c.halt2 + 1 < c.done
    ensures !CanLoseWakeup(c)
  {
    LostWakeupExactly(c);
  }

  // ---------------------------------------------------------------------------
  // What a completed run has done
  // ---------------------------------------------------------------------------

  /** When nobody can move any more in a safe configuration, both threads have
      returned, `count` is the goal or one more, and the printed values are
      1, 2, ..., count in this order. */
  lemma CompletedRun(c: Config, acts: seq<Act>)
    requires Quiescent(Run(c, acts)) && !c.CanStrand()
    ensures var s := Run(c, acts);
      && Finished(s) && c.Goal() <= s.count <= c.Goal() + 1
      && |s.out| == s.count && forall i :: 0 <= i < s.count ==> s.out[i].value == i + 1
  {
    RunReaches(c, acts);
    Settled(c, Run(c, acts));
  }

  /** At any moment of any run the printed values are 1, 2, ... without a gap,
      lagging at most one behind `count`, which never exceeds the goal by two. */
  lemma PrintedSoFar(c: Config, acts: seq<Act>)
    ensures var s := Run(c, acts);
      && s.count - 1 <= |s.out| <= s.count <= c.Goal() + 1
      && forall i :: 0 <= i < |s.out| ==> s.out[i].value == i + 1
  {
    RunReaches(c, acts);
  }

  /** How many of the writes that read an old value in [lo, hi) thread `t` made. */
  function WritesBy(stores: seq<Write>, t: Thread, lo: nat, hi: nat): nat
    requires lo <= hi <= |stores|
    decreases hi - lo
  {
    if lo == hi then 0 else (if Writer(stores[lo]) == t then 1 else 0) + WritesBy(stores, t, lo + 1, hi)
  }

  lemma {:induction false} WritesSplit(stores: seq<Write>, lo: nat, hi: nat)
    requires lo <= hi <= |stores|
    ensures WritesBy(stores, One, lo, hi) + WritesBy(stores, Two, lo, hi) == hi - lo
    decreases hi - lo
  {
    if lo < hi {
      WritesSplit(stores, lo + 1, hi);
    }
  }

  lemma {:induction false} AtMostOneWrite(stores: seq<Write>, lo: nat, hi: nat)
    requires lo <= hi <= |stores|
    requires forall i, j :: lo <= i < j < hi ==> stores[i].ByTwo? || stores[j].ByTwo?
    ensures WritesBy(stores, One, lo, hi) <= 1
    ensures (forall i :: lo <= i < hi ==> stores[i].ByTwo?) ==> WritesBy(stores, One, lo, hi) == 0
    decreases hi - lo
  {
    if lo < hi {
      AtMostOneWrite(stores, lo + 1, hi);
    }
  }

  /** Thread one increments `count` inside the band at most once in a whole run. */
  lemma BandWritesOfOne(c: Config, acts: seq<Act>, i: nat, j: nat)
    requires i < j < |Run(c, acts).stores| && c.InBand(i) && c.InBand(j)
    ensures Run(c, acts).stores[i].ByTwo? || Run(c, acts).stores[j].ByTwo?
  {
    RunReaches(c, acts);
    var stores := Run(c, acts).stores;
    assert stores[i].ByOne? ==> OneInBand(c, stores, i);
    assert stores[j].ByOne? ==> OneInBand(c, stores, j);
  }

  /** So once the band has been crossed, thread two made all of its increments
      but at most one. */
  lemma BandIsCrossedByTwo(c: Config, acts: seq<Act>)
    requires 0 <= c.halt1 <= c.halt2 < |Run(c, acts).stores|
    ensures WritesBy(Run(c, acts).stores, Two, c.halt1, c.halt2 + 1) >= c.halt2 - c.halt1
  {
    var stores := Run(c, acts).stores;
    forall i, j | c.halt1 <= i < j < c.halt2 + 1
      ensures stores[i].ByTwo? || stores[j].ByTwo?
    {
      BandWritesOfOne(c, acts, i, j);
    }
    AtMostOneWrite(stores, c.halt1, c.halt2 + 1);
    WritesSplit(stores, c.halt1, c.halt2 + 1);
  }

  /** Mutual exclusion, under any schedule: both tests of the band, the decision to
      wait and the signal happen with the condition mutex held, and the increments
      and the printing with the other one. */
  lemma CriticalSections(c: Config, acts: seq<Act>)
    ensures var s := Run(c, acts);
      && (s.pc1 in {TestLow, TestHigh, CallWait} ==> s.cond == HeldByOne)
      && (s.pc2 in {TestLow, TestHigh, Signal} ==> s.cond == HeldByTwo)
      && (s.pc1 in {Load, Store, Print} ==> s.mutex == HeldByOne)
      && (s.pc2 in {Load, Store, Print} ==> s.mutex == HeldByTwo)
      && (s.pc1 in {Asleep, LockCond, LockCount, TestDone, Returned} ==> s.cond != HeldByOne && s.mutex != HeldByOne)
      && (s.pc2 in {LockCond, LockCount, TestDone, Returned} ==> s.cond != HeldByTwo && s.mutex != HeldByTwo)
  {
    RunReaches(c, acts);
  }

  // ---------------------------------------------------------------------------
  // When thread two signals
  // ---------------------------------------------------------------------------

  /** Thread two wakes thread one only after `count` has left the band, in every
      reachable state, spurious wakeups included. */
  lemma SignalWakesPastBand(c: Config, acts: seq<Act>)
    requires Run(c, acts).pc1 == Asleep && Run(c, acts + [RunTwo]).pc1 == Woken
    ensures Run(c, acts).count > c.halt2
  {
    RunReaches(c, acts);
    FoldSnoc(Stepper(c), INIT, acts, RunTwo);
  }

  ghost predicate WokenLate(c: Config, s: State) { Inv(c, s) && (s.pc1 == Woken ==> s.count > c.halt2) }

  lemma StepKeepsWoken(c: Config, s: State, a: Act)
    requires WokenLate(c, s) && a != Spurious
    ensures WokenLate(c, Step(c, s, a))
  {
    StepKeepsInv(c, s, a);
  }

  /** Without spurious wakeups a woken thread one finds the band left for good, so
      that it never waits a second time for the same band. */
  lemma WokenPastBand(c: Config, acts: seq<Act>)
    requires Spurious !in acts
    ensures Run(c, acts).pc1 == Woken ==> Run(c, acts).count > c.halt2
  {
    RunReaches(c, []);
    forall s, a | WokenLate(c, s) && a != Spurious ensures WokenLate(c, Stepper(c)(s, a)) {
      StepKeepsWoken(c, s, a);
    }
    FoldKeepsFor(Stepper(c), s => WokenLate(c, s), a => a != Spurious, INIT, acts);
  }

  /** Thread one has passed its test and not yet incremented. */
  ghost predicate InFlight(pc: Pc) { pc in {UnlockCond, LockCount, Load, Store} }

  ghost predicate Signalling(c: Config, s: State) {
    && (s.pc2 in {TestLow, TestHigh, Signal} ==> !s.lap)
    && (s.pc2 == TestHigh || (InFlight(s.pc2) && !s.lap) ==> c.halt1 <= s.count)
    && (s.pc2 == Signal || (InFlight(s.pc2) && s.lap) ==>
          s.count > c.halt2 || s.count + (if InFlight(s.pc1) then 1 else 0) <= c.halt1)
    && (forall i :: 0 <= i < |s.stores| && s.stores[i].ByTwo? ==>
          if s.stores[i].signalled then i <= c.halt1 || i > c.halt2 else i >= c.halt1)
  }

  lemma StepTwoKeepsSignalling(c: Config, s: State)
    requires Inv(c, s) && Signalling(c, s)
    ensures Signalling(c, Step(c, s, RunTwo))
  {
  }

  lemma StepOneKeepsSignalling(c: Config, s: State)
    requires Inv(c, s) && Signalling(c, s)
    ensures Signalling(c, Step(c, s, RunOne))
  {
    var t := Step(c, s, RunOne);
    assert t.stores == s.stores || t.stores == s.stores + [ByOne];
  }

  lemma StepKeepsSignalling(c: Config, s: State, a: Act)
    requires Inv(c, s) && Signalling(c, s)
    ensures Signalling(c, Step(c, s, a))
  {
    if a == RunTwo { StepTwoKeepsSignalling(c, s); }
    if a == RunOne { StepOneKeepsSignalling(c, s); }
  }

  /** Every increment by thread two from below the band follows a signal in the
      same lap, and none from inside the band does, except at the lowest value of
      the band, which thread one may have reached since the test. */
  lemma SignalsOutsideBand(c: Config, acts: seq<Act>, i: nat)
    requires i < |Run(c, acts).stores| && Run(c, acts).stores[i].ByTwo?
    ensures i < c.halt1 ==> Run(c, acts).stores[i].signalled
    ensures c.halt1 < i <= c.halt2 ==> !Run(c, acts).stores[i].signalled
  {
    RunReaches(c, []);
    forall s, a | Inv(c, s) && Signalling(c, s) ensures Inv(c, Stepper(c)(s, a)) && Signalling(c, Stepper(c)(s, a)) {
      StepKeepsInv(c, s, a);
      StepKeepsSignalling(c, s, a);
    }
    FoldKeeps(Stepper(c), s => Inv(c, s) && Signalling(c, s), INIT, acts);
  }

  // ---------------------------------------------------------------------------
  // The final counts, exactly
  // ---------------------------------------------------------------------------

  /** Thread one passes its waiting loop when `count` is outside the band. */
  lemma EntryOfOne(c: Config, s: State) returns (acts: seq<Act>)
    requires s.pc1 == LockCond && s.cond == Free && !c.InBand(s.count)
    ensures Spurious !in acts
    ensures Fold(Stepper(c), s, acts) == s.(pc1 := LockCount)
  {
    var step := Stepper(c);
    var s1 := step(s, RunOne);
    var s2 := step(s1, RunOne);
    var s3 := step(s2, RunOne);
    if s.count < c.halt1 {
      assert s2.pc1 == UnlockCond;
      acts := Times(RunOne, 3);
      FoldTimes(step, s, RunOne, 3);
      assert Repeat(step, s, RunOne, 3) == Repeat(step, s1, RunOne, 2) == Repeat(step, s2, RunOne, 1) == s3;
    } else {
      assert s3.pc1 == UnlockCond;
      acts := Times(RunOne, 4);
      FoldTimes(step, s, RunOne, 4);
      assert Repeat(step, s, RunOne, 4) == Repeat(step, s1, RunOne, 3) == Repeat(step, s2, RunOne, 2);
      assert Repeat(step, s2, RunOne, 2) == Repeat(step, s3, RunOne, 1) == step(s3, RunOne);
    }
  }

  lemma StoreOfOne(c: Config, s: State)
    requires s.pc1 == LockCount && s.mutex == Free
    ensures var t := Repeat(Stepper(c), s, RunOne, 3);
      t == s.(mutex := HeldByOne, pc1 := Print, reg1 := s.count, count := s.count + 1, stores := t.stores)
  {
    var s1 := Step(c, s, RunOne);
    assert s1 == s.(mutex := HeldByOne, pc1 := Load);
    var s2 := Step(c, s1, RunOne);
    assert s2 == s1.(reg1 := s.count, pc1 := Store);
  }

  lemma PrintOfOne(c: Config, s: State)
    requires s.pc1 == Print
    ensures var t := Repeat(Stepper(c), s, RunOne, 2); t == s.(out := t.out, mutex := Free, pc1 := TestDone)
  {
    var s1 := Step(c, s, RunOne);
    assert s1 == s.(out := s1.out, pc1 := UnlockCount);
  }

  /** It increments and comes to its stop test. */
  lemma IncrementOfOne(c: Config, s: State) returns (acts: seq<Act>)
    requires s.pc1 == LockCount && s.mutex == Free
    ensures Spurious !in acts
    ensures var t := Fold(Stepper(c), s, acts);
      t == s.(pc1 := TestDone, reg1 := s.count, count := s.count + 1, stores := t.stores, out := t.out)
  {
    StoreOfOne(c, s);
    FoldTimes(Stepper(c), s, RunOne, 3);
    var t := Fold(Stepper(c), s, Times(RunOne, 3));
    PrintOfOne(c, t);
    FoldTimes(Stepper(c), t, RunOne, 2);
    FoldSplit(Stepper(c), s, Times(RunOne, 3), Times(RunOne, 2));
    acts := Times(RunOne, 3) + Times(RunOne, 2);
  }

  /** A schedule continued by another. */
  lemma Then(c: Config, acts: seq<Act>, more: seq<Act>) returns (all: seq<Act>)
    requires Spurious !in acts && Spurious !in more
    ensures Spurious !in all && Run(c, all) == Fold(Stepper(c), Run(c, acts), more)
  {
    FoldSplit(Stepper(c), INIT, acts, more);
    all := acts + more;
  }

  /** Thread one passes its loop at count 0, if it can, or else after thread two
      has climbed to `k`; thread two then stands at the top of its loop, or has
      returned, with count `k`. */
  lemma ClimbTo(c: Config, k: nat) returns (acts: seq<Act>)
    requires k <= c.Goal()
    ensures Spurious !in acts
    ensures var t := Run(c, acts);
      && t.count == k && t.cond == Free && t.mutex == Free
      && t.pc1 == (if c.InBand(0) then LockCond else LockCount)
      && t.pc2 == (if k > 0 && k >= c.done then Returned else LockCond)
  {
    acts := [];
    if !c.InBand(0) {
      acts := EntryOfOne(c, INIT);
    }
    var climb := DriveTwo(c, Run(c, acts), k);
    acts := Then(c, acts, climb);
  }

  /** Thread one completes the run by one increment. */
  lemma OneCompletes(c: Config, acts: seq<Act>) returns (all: seq<Act>)
    requires Spurious !in acts
    requires var s := Run(c, acts);
      && s.cond == Free && s.mutex == Free && s.count + 1 >= c.done
      && (s.pc1 == LockCount || (s.pc1 == LockCond && !c.InBand(s.count)))
    ensures Spurious !in all
    ensures var s, t := Run(c, acts), Run(c, all);
      t.pc1 == Returned && t.count == s.count + 1 && t.pc2 == s.pc2
  {
    all := acts;
    if Run(c, acts).pc1 == LockCond {
      var entry := EntryOfOne(c, Run(c, acts));
      all := Then(c, all, entry);
    }
    var more := IncrementOfOne(c, Run(c, all));
    all := Then(c, all, more);
    FoldSnoc(Stepper(c), INIT, all, RunOne);
    all := all + [RunOne];
  }

  ghost predicate EndsAt(c: Config, v: int) {
    exists acts :: Spurious !in acts && Finished(Run(c, acts)) && Run(c, acts).count == v
  }

  /** Thread two returns at the goal and thread one increments once more. */
  lemma EndsAboveGoal(c: Config)
    requires c.InBand(0) ==> c.Goal() > c.halt2
    ensures EndsAt(c, c.Goal() + 1)
  {
    var acts := ClimbTo(c, c.Goal());
    acts := OneCompletes(c, acts);
  }

  lemma TwoReturns(c: Config, s: State)
    requires s.pc2 == TestDone && s.count >= c.done
    ensures Stepper(c)(s, RunTwo) == s.(pc2 := Returned)
  {
  }

  /** Thread two is overtaken between its last increment and its stop test. */
  lemma EndsAtGoal(c: Config)
    requires c.Goal() > 1 && (c.InBand(0) ==> c.Goal() > c.halt2 + 1)
    ensures EndsAt(c, c.Goal())
  {
    var acts := ClimbTo(c, c.Goal() - 2);
    var lap := ToTestOfTwo(c, Run(c, acts));
    acts := Then(c, acts, lap);
    assert Run(c, acts).count == c.Goal() - 1 && Run(c, acts).pc2 == TestDone;
    var all := OneCompletes(c, acts);
    assert Run(c, all).count == c.Goal() && Run(c, all).pc1 == Returned && Run(c, all).pc2 == TestDone;
    FoldSnoc(Stepper(c), INIT, all, RunTwo);
    TwoReturns(c, Run(c, all));
    assert Run(c, all + [RunTwo]) == Run(c, all).(pc2 := Returned);
  }

  ghost predicate OneWrote(s: State) { exists i :: 0 <= i < |s.stores| && s.stores[i].ByOne? }

  /** A band that contains 0 keeps thread one waiting until it is crossed. */
  ghost predicate OneWritesLate(c: Config, s: State) {
    c.InBand(0) ==>
      && (InFlight(s.pc1) ==> s.count > c.halt2)
      && forall i :: 0 <= i < |s.stores| && s.stores[i].ByOne? ==> i > c.halt2
  }

  ghost predicate LateOne(c: Config, s: State) { (!Committed(s.pc1) ==> OneWrote(s)) && OneWritesLate(c, s) }

  lemma StepKeepsLateOne(c: Config, s: State, a: Act)
    requires Inv(c, s) && LateOne(c, s)
    ensures LateOne(c, Step(c, s, a))
  {
    var t := Step(c, s, a);
    Writes(c, s, a);
    if s.pc1 == Store && a == RunOne { assert t.stores[s.count].ByOne?; }
    assert OneWrote(s) ==> OneWrote(t) by {
      if i :| 0 <= i < |s.stores| && s.stores[i].ByOne? { assert t.stores[i].ByOne?; }
    }
  }

  lemma RunKeepsLateOne(c: Config, acts: seq<Act>)
    ensures Inv(c, Run(c, acts)) && LateOne(c, Run(c, acts))
  {
    RunReaches(c, []);
    forall s, a | Inv(c, s) && LateOne(c, s) ensures Inv(c, Stepper(c)(s, a)) && LateOne(c, Stepper(c)(s, a)) {
      StepKeepsInv(c, s, a);
      StepKeepsLateOne(c, s, a);
    }
    FoldKeeps(Stepper(c), s => Inv(c, s) && LateOne(c, s), INIT, acts);
  }

  predicate PossibleCount(c: Config, v: int) {
    || (v == c.Goal() + 1 && (c.InBand(0) ==> c.Goal() > c.halt2))
    || (v == c.Goal() > 1 && (c.InBand(0) ==> c.Goal() > c.halt2 + 1))
  }

  /** The values of `count` with which both threads can return, exactly, for all
      constants: the goal, if it is more than one increment, and the goal plus one,
      unless a band that contains 0 keeps thread one waiting too long. */
  lemma FinalCountsExactly(c: Config, v: int)
    ensures EndsAt(c, v) <==> PossibleCount(c, v)
  {
    if EndsAt(c, v) {
      var acts :| Spurious !in acts && Finished(Run(c, acts)) && Run(c, acts).count == v;
      RunKeepsLateOne(c, acts);
      assert !Committed(Run(c, acts).pc1) && !Committed(Run(c, acts).pc2);
    }
    if PossibleCount(c, v) {
      if v == c.Goal() { EndsAtGoal(c); } else { EndsAboveGoal(c); }
    }
  }
}
