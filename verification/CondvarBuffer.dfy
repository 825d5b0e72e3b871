/** The bounded buffer protected by one mutex and two condition variables.  One
    producer and one consumer each loop `|input|` times over a shared array and
    its fill count.

    A schedule is a sequence of choices of who moves next; choosing a thread that
    is blocked or finished changes nothing. */
module CondvarBuffer {
  import opened BoundedStack
  import opened Schedules

  datatype Owner = Free | Producer | Consumer

  datatype Pc =
    | LoopTest | Lock | Check | CallWait | Asleep | Woken
    | Access | Load | Store | Signal | Unlock | Done

  datatype Act = RunProducer | RunConsumer | WakeProducer | WakeConsumer

  /** `history` records the accesses to the array in lock order and `out` the
      characters the consumer printed; `fault` tells that some access was out
      of bounds. */
  datatype State = State(
    buf: seq<char>,
    count: int,
    lock: Owner,
    p: Pc, i: nat, regP: int,
    c: Pc, j: nat, regC: int,
    history: seq<Op>,
    out: seq<char>,
    fault: bool)

  function Init(m: Params): State {
    State(m.junk, 0, Free, LoopTest, 0, 0, LoopTest, 0, 0, [], [], false)
  }

  predicate CanMove(pc: Pc, lock: Owner) {
    pc != Done && pc != Asleep && (pc == Lock || pc == Woken ==> lock == Free)
  }

  predicate Enabled(s: State, a: Act) {
    match a
    case RunProducer => CanMove(s.p, s.lock)
    case RunConsumer => CanMove(s.c, s.lock)
    case WakeProducer => s.p == Asleep
    case WakeConsumer => s.c == Asleep
  }

  function StepProducer(m: Params, s: State): State {
    match s.p
    case LoopTest => s.(p := if s.i < m.N() then Lock else Done)
    case Lock | Woken => s.(lock := Producer, p := Check)
    case Check => s.(p := if s.count == m.max then CallWait else Access)
    case CallWait => s.(lock := Free, p := Asleep)
    case Access =>
      var inside := 0 <= s.count < |s.buf| && s.i < m.N();
      s.(buf := if inside then s.buf[s.count := m.input[s.i]] else s.buf,
         fault := s.fault || !inside, history := s.history + [Push], p := Load)
    case Load => s.(regP := s.count, p := Store)
    case Store => s.(count := s.regP + 1, p := Signal)
    case Signal => s.(c := if s.c == Asleep then Woken else s.c, p := Unlock)
    case Unlock => s.(lock := Free, i := s.i + 1, p := LoopTest)
    case _ => s
  }

  function StepConsumer(m: Params, s: State): State {
    match s.c
    case LoopTest => s.(c := if s.j < m.N() then Lock else Done)
    case Lock | Woken => s.(lock := Consumer, c := Check)
    case Check => s.(c := if s.count == 0 then CallWait else Access)
    case CallWait => s.(lock := Free, c := Asleep)
    case Access =>
      var inside := 0 < s.count <= |s.buf|;
      s.(out := if inside then s.out + [s.buf[s.count - 1]] else s.out,
         fault := s.fault || !inside, history := s.history + [Pop], c := Load)
    case Load => s.(regC := s.count, c := Store)
    case Store => s.(count := s.regC - 1, c := Signal)
    case Signal => s.(p := if s.p == Asleep then Woken else s.p, c := Unlock)
    case Unlock => s.(lock := Free, j := s.j + 1, c := LoopTest)
    case _ => s
  }

  function Step(m: Params, s: State, a: Act): State {
    if !Enabled(s, a) then s
    else match a
      case RunProducer => StepProducer(m, s)
      case RunConsumer => StepConsumer(m, s)
      case WakeProducer => s.(p := Woken)
      case WakeConsumer => s.(c := Woken)
  }

  function Stepper(m: Params): (State, Act) -> State { (s, a) => Step(m, s, a) }

  function Run(m: Params, acts: seq<Act>): State { Fold(Stepper(m), Init(m), acts) }

  predicate Finished(s: State) { s.p == Done && s.c == Done }

  /** Neither thread can move unless a spurious wakeup comes to help. */
  predicate Quiescent(s: State) { !Enabled(s, RunProducer) && !Enabled(s, RunConsumer) }

  /** A choice that is not a spurious wakeup. */
  predicate Genuine(a: Act) { a == RunProducer || a == RunConsumer }

  // ---------------------------------------------------------------------------
  // What every step keeps
  // ---------------------------------------------------------------------------

  ghost predicate Holds(pc: Pc) { pc in {Check, CallWait, Access, Load, Store, Signal, Unlock} }

  /** The array has been accessed in this iteration. */
  ghost predicate Accessed(pc: Pc) { pc in {Load, Store, Signal, Unlock} }

  /** Items a thread has moved, counting the iteration it is in. */
  ghost function Moved(pc: Pc, i: nat): nat { i + if Accessed(pc) then 1 else 0 }

  ghost predicate Looping(m: Params, pc: Pc, i: nat) {
    && i <= m.N() && (pc == Done ==> i == m.N())
    && (pc != LoopTest && pc != Done ==> i < m.N())
  }

  /** The number of items in the array: `count`, corrected by a thread that has
      accessed the array and not yet stored the new count. */
  ghost function Fill(s: State): int {
    s.count + (if s.p == Load || s.p == Store then 1 else 0) - (if s.c == Load || s.c == Store then 1 else 0)
  }

  ghost predicate Locking(m: Params, s: State) {
    && (s.lock == Producer <==> Holds(s.p)) && (s.lock == Consumer <==> Holds(s.c))
    && Looping(m, s.p, s.i) && Looping(m, s.c, s.j)
    && (s.p == Store ==> s.regP == s.count) && (s.c == Store ==> s.regC == s.count)
    && 0 <= s.count <= m.max && 0 <= Fill(s) <= m.max
    && (s.p == Access ==> s.count < m.max) && (s.c == Access ==> s.count > 0)
  }

  /** A sleeping producer means a full buffer, or a consumer about to signal;
      a sleeping consumer an empty buffer, or a producer about to signal. */
  ghost predicate Sleeping(m: Params, s: State) {
    && (s.p == CallWait ==> s.count == m.max) && (s.c == CallWait ==> s.count == 0)
    && (s.p == Asleep ==> s.count == m.max || s.c == Signal)
    && (s.c == Asleep ==> s.count == 0 || s.p == Signal)
  }

  ghost predicate Contents(m: Params, s: State) {
    && Pushes(s.history) == Moved(s.p, s.i) && Pops(s.history) == Moved(s.c, s.j)
    && Level(s.history) == Fill(s) && !s.fault
    && Follows(m, s.history, s.buf, s.out)
  }

  ghost predicate Inv(m: Params, s: State) {
    m.Valid() && Locking(m, s) && Sleeping(m, s) && Contents(m, s)
  }

  lemma InitInv(m: Params)
    requires m.Valid()
    ensures Inv(m, Init(m))
  {
    FollowsNothing(m);
  }

  lemma StepKeepsLocking(m: Params, s: State, a: Act)
    requires m.Valid() && Locking(m, s)
    ensures Locking(m, Step(m, s, a))
  {
  }

  lemma StepKeepsSleeping(m: Params, s: State, a: Act)
    requires m.Valid() && Locking(m, s) && Sleeping(m, s)
    ensures Sleeping(m, Step(m, s, a))
  {
  }

  /** All steps but the two array accesses leave the array, the history, the
      output and the number of items alone. */
  lemma OtherStepsAreQuiet(m: Params, s: State, a: Act)
    requires Locking(m, s)
    requires !(a == RunProducer && s.p == Access) && !(a == RunConsumer && s.c == Access)
    ensures var t := Step(m, s, a);
      && t.history == s.history && t.buf == s.buf && t.out == s.out && t.fault == s.fault
      && Fill(t) == Fill(s) && Moved(t.p, t.i) == Moved(s.p, s.i) && Moved(t.c, t.j) == Moved(s.c, s.j)
  {
  }

  lemma PushStep(m: Params, s: State)
    requires s.p == Access && 0 <= s.count < m.max == |s.buf| && s.i < m.N()
    ensures Step(m, s, RunProducer)
         == s.(buf := s.buf[s.count := m.input[s.i]], history := s.history + [Push], p := Load)
  {
  }

  lemma PopStep(m: Params, s: State)
    requires s.c == Access && 0 < s.count <= m.max == |s.buf|
    ensures Step(m, s, RunConsumer)
         == s.(out := s.out + [s.buf[s.count - 1]], history := s.history + [Pop], c := Load)
  {
  }

  lemma PushNow(m: Params, s: State)
    requires Locking(m, s) && s.p == Access && |s.buf| == m.max
    ensures Fill(s) == s.count
    ensures Step(m, s, RunProducer)
         == s.(buf := s.buf[s.count := m.input[s.i]], history := s.history + [Push], p := Load)
  {
    PushStep(m, s);
  }

  lemma PushKeepsContents(m: Params, s: State)
    requires Inv(m, s) && s.p == Access
    ensures Contents(m, Step(m, s, RunProducer))
  {
    PushNow(m, s);
    Snoc(s.history, Push);
    FollowsPush(m, s.history, s.buf, s.out);
  }

  lemma PopNow(m: Params, s: State)
    requires Locking(m, s) && s.c == Access && |s.buf| == m.max
    ensures Fill(s) == s.count
    ensures Step(m, s, RunConsumer)
         == s.(out := s.out + [s.buf[s.count - 1]], history := s.history + [Pop], c := Load)
  {
    PopStep(m, s);
  }

  lemma PopKeepsContents(m: Params, s: State)
    requires Inv(m, s) && s.c == Access
    ensures Contents(m, Step(m, s, RunConsumer))
  {
    PopNow(m, s);
    Snoc(s.history, Pop);
    FollowsPop(m, s.history, s.buf, s.out);
  }

  lemma StepKeepsInv(m: Params, s: State, a: Act)
    requires Inv(m, s)
    ensures Inv(m, Step(m, s, a))
  {
    StepKeepsLocking(m, s, a);
    StepKeepsSleeping(m, s, a);
    if a == RunProducer && s.p == Access {
      PushKeepsContents(m, s);
    } else if a == RunConsumer && s.c == Access {
      PopKeepsContents(m, s);
    } else {
      OtherStepsAreQuiet(m, s, a);
    }
  }

  lemma RunReaches(m: Params, acts: seq<Act>)
    requires m.Valid()
    ensures Inv(m, Run(m, acts))
  {
    InitInv(m);
    forall s, a | Inv(m, s) ensures Inv(m, Stepper(m)(s, a)) {
      StepKeepsInv(m, s, a);
    }
    FoldKeeps(Stepper(m), s => Inv(m, s), Init(m), acts);
  }

  // ---------------------------------------------------------------------------
  // Safety
  // ---------------------------------------------------------------------------

  /** Over all interleavings, spurious wakeups included: no access is out of
      bounds; outside critical sections the first `count` cells are the stack
      that the lock-order history leaves; the consumer has printed exactly the
      items that the history takes out, in that order. */
  lemma BufferIsReplayedStack(m: Params, acts: seq<Act>)
    requires m.Valid()
    ensures var s := Run(m, acts); var r := Replay(s.history);
      && !s.fault && 0 <= s.count <= m.max == |s.buf| && Bounded(s.history, m.max)
      && (s.lock == Free ==>
            && |r.stack| == s.count
            && forall k :: 0 <= k < s.count ==> r.stack[k] < m.N() && s.buf[k] == m.input[r.stack[k]])
      && |s.out| == |r.popped|
      && forall k :: 0 <= k < |s.out| ==> r.popped[k] < m.N() && s.out[k] == m.input[r.popped[k]]
  {
    RunReaches(m, acts);
  }

  /** Mutual exclusion, under any schedule: the count is tested and changed, the
      array accessed and the other thread signalled only with the lock held, and a
      thread that sleeps, or is between two iterations, does not hold it. */
  lemma CriticalSections(m: Params, acts: seq<Act>)
    requires m.Valid()
    ensures var s := Run(m, acts);
      && (s.p in {Check, CallWait, Access, Load, Store, Signal} ==> s.lock == Producer)
      && (s.c in {Check, CallWait, Access, Load, Store, Signal} ==> s.lock == Consumer)
      && (s.p in {LoopTest, Asleep, Done} ==> s.lock != Producer)
      && (s.c in {LoopTest, Asleep, Done} ==> s.lock != Consumer)
  {
    RunReaches(m, acts);
  }

  /** A thread signals, and is woken, only when the buffer has room or an item. */
  ghost predicate WokenInTime(m: Params, s: State) {
    && (s.p == Woken || s.c == Signal ==> s.count < m.max)
    && (s.c == Woken || s.p == Signal ==> s.count > 0)
  }

  lemma StepKeepsWoken(m: Params, s: State, a: Act)
    requires Locking(m, s) && WokenInTime(m, s) && Genuine(a)
    ensures WokenInTime(m, Step(m, s, a))
  {
  }

  /** Without spurious wakeups a woken thread finds what it waited for: the other
      thread cannot take it away before the woken one gets the lock. */
  lemma SignalledThreadProceeds(m: Params, acts: seq<Act>)
    requires m.Valid() && forall a :: a in acts ==> Genuine(a)
    ensures var s := Run(m, acts);
      (s.p == Woken ==> s.count < m.max) && (s.c == Woken ==> s.count > 0)
  {
    RunReaches(m, []);
    forall s, a | Inv(m, s) && WokenInTime(m, s) && Genuine(a)
      ensures Inv(m, Stepper(m)(s, a)) && WokenInTime(m, Stepper(m)(s, a))
    {
      StepKeepsInv(m, s, a);
      StepKeepsWoken(m, s, a);
    }
    FoldKeepsFor(Stepper(m), s => Inv(m, s) && WokenInTime(m, s), a => Genuine(a), Init(m), acts);
  }

  // ---------------------------------------------------------------------------
  // Deadlock freedom and termination
  // ---------------------------------------------------------------------------

  /** When neither thread can move, both are done, every item has been pushed
      and popped, and the buffer is empty. */
  lemma Settled(m: Params, s: State)
    requires Inv(m, s) && Quiescent(s)
    ensures Finished(s) && s.count == 0 && Complete(s.history, m.N(), m.max) && |s.out| == m.N()
  {
    ReplayOrdered(s.history, m.max);
    match s.lock case Free => case Producer => case Consumer =>
  }

  lemma NoDeadlock(m: Params, acts: seq<Act>)
    requires m.Valid() && Quiescent(Run(m, acts))
    ensures var s := Run(m, acts);
      Finished(s) && s.count == 0 && Complete(s.history, m.N(), m.max) && |s.out| == m.N()
  {
    RunReaches(m, acts);
    Settled(m, Run(m, acts));
  }

  /** Steps to the end of an iteration; a signal pays for the rank it gives. */
  function PcRank(pc: Pc): nat {
    match pc
    case LoopTest => 11 case Lock => 10 case Woken => 10 case Check => 9
    case CallWait => 8 case Asleep => 7
    case Access => 8 case Load => 7 case Store => 6 case Signal => 5 case Unlock => 1 case Done => 0
  }

  function Rank(m: Params, s: State): int {
    12 * (m.N() - s.i) + PcRank(s.p) + 12 * (m.N() - s.j) + PcRank(s.c)
  }

  lemma ProducerLowersRank(m: Params, s: State)
    requires Locking(m, s) && Enabled(s, RunProducer)
    ensures Rank(m, Step(m, s, RunProducer)) < Rank(m, s)
  {
  }

  lemma ConsumerLowersRank(m: Params, s: State)
    requires Locking(m, s) && Enabled(s, RunConsumer)
    ensures Rank(m, Step(m, s, RunConsumer)) < Rank(m, s)
  {
  }

  lemma StepLowersRank(m: Params, s: State, a: Act)
    requires Inv(m, s) && Genuine(a) && Enabled(s, a)
    ensures Rank(m, Step(m, s, a)) < Rank(m, s) && Step(m, s, a) != s
  {
    if a == RunProducer { ProducerLowersRank(m, s); } else { ConsumerLowersRank(m, s); }
  }

  /** Termination: no scheduling makes more than 24 N + 22 moves. */
  lemma RunsEnd(m: Params, acts: seq<Act>)
    requires m.Valid() && forall a :: a in acts ==> Genuine(a)
    ensures Moves(Stepper(m), Init(m), acts) <= 24 * m.N() + 22
  {
    InitInv(m);
    forall s, a | Inv(m, s) ensures Inv(m, Stepper(m)(s, a)) {
      StepKeepsInv(m, s, a);
    }
    forall s, a | Inv(m, s) && Genuine(a) && Stepper(m)(s, a) != s
      ensures Rank(m, Stepper(m)(s, a)) < Rank(m, s)
    {
      StepLowersRank(m, s, a);
    }
    MovesBounded(Stepper(m), s => Inv(m, s), s => Rank(m, s), a => Genuine(a), Init(m), acts);
  }

  // ---------------------------------------------------------------------------
  // Which histories the program can produce
  // ---------------------------------------------------------------------------

  /** Some completed run accesses the buffer in the order `h`. */
  ghost predicate Produces(m: Params, h: seq<Op>) {
    exists acts :: Finished(Run(m, acts)) && Run(m, acts).history == h
  }

  ghost predicate Idle(m: Params, s: State) {
    s.lock == Free && s.p == LoopTest && s.c == LoopTest && |s.buf| == m.max
  }

  lemma ProducerEnters(m: Params, s: State)
    requires Idle(m, s) && 0 <= s.count < m.max && s.i < m.N()
    ensures Repeat(Stepper(m), s, RunProducer, 3) == s.(lock := Producer, p := Access)
  {
    var s1 := Step(m, s, RunProducer);
    assert s1 == s.(p := Lock);
    var s2 := Step(m, s1, RunProducer);
    assert s2 == s1.(lock := Producer, p := Check);
    var s3 := Step(m, s2, RunProducer);
    assert s3 == s.(lock := Producer, p := Access);
    var step := Stepper(m);
    assert Repeat(step, s, RunProducer, 3) == Repeat(step, s1, RunProducer, 2);
    assert Repeat(step, s1, RunProducer, 2) == Repeat(step, s2, RunProducer, 1) == s3;
  }

  lemma ProducerAccesses(m: Params, s: State)
    requires Idle(m, s) && 0 <= s.count < m.max && s.i < m.N()
    ensures var t := Repeat(Stepper(m), s, RunProducer, 4);
      && t == s.(lock := Producer, p := Load, history := s.history + [Push], buf := t.buf, fault := t.fault)
      && |t.buf| == m.max
  {
    ProducerEnters(m, s);
    var s3 := s.(lock := Producer, p := Access);
    PushStep(m, s3);
    RepeatSplit(Stepper(m), s, RunProducer, 3, 1);
    assert Repeat(Stepper(m), s3, RunProducer, 1) == Step(m, s3, RunProducer);
  }

  lemma ProducerCounts(m: Params, s: State)
    requires s.lock == Producer && s.p == Load
    ensures Repeat(Stepper(m), s, RunProducer, 2) == s.(regP := s.count, count := s.count + 1, p := Signal)
  {
    var step := Stepper(m);
    var s1 := step(s, RunProducer);
    assert s1 == s.(regP := s.count, p := Store);
    var s2 := step(s1, RunProducer);
    assert s2 == s1.(count := s.count + 1, p := Signal);
    assert Repeat(step, s, RunProducer, 2) == Repeat(step, s1, RunProducer, 1) == s2;
  }

  lemma ProducerFinishesLap(m: Params, s: State)
    requires s.lock == Producer && s.p == Load && s.c == LoopTest
    ensures Repeat(Stepper(m), s, RunProducer, 4)
         == s.(lock := Free, p := LoopTest, regP := s.count, count := s.count + 1, i := s.i + 1)
  {
    var step := Stepper(m);
    ProducerCounts(m, s);
    var s2 := Repeat(step, s, RunProducer, 2);
    var s3 := Step(m, s2, RunProducer);
    assert s3 == s2.(p := Unlock);
    var s4 := Step(m, s3, RunProducer);
    assert s4 == s3.(lock := Free, i := s.i + 1, p := LoopTest);
    assert Repeat(step, s2, RunProducer, 2) == Repeat(step, s3, RunProducer, 1) == s4;
    RepeatSplit(step, s, RunProducer, 2, 2);
  }

  lemma ConsumerEnters(m: Params, s: State)
    requires Idle(m, s) && 0 < s.count <= m.max && s.j < m.N()
    ensures Repeat(Stepper(m), s, RunConsumer, 3) == s.(lock := Consumer, c := Access)
  {
    var s1 := Step(m, s, RunConsumer);
    assert s1 == s.(c := Lock);
    var s2 := Step(m, s1, RunConsumer);
    assert s2 == s1.(lock := Consumer, c := Check);
    var s3 := Step(m, s2, RunConsumer);
    assert s3 == s.(lock := Consumer, c := Access);
    var step := Stepper(m);
    assert Repeat(step, s, RunConsumer, 3) == Repeat(step, s1, RunConsumer, 2);
    assert Repeat(step, s1, RunConsumer, 2) == Repeat(step, s2, RunConsumer, 1) == s3;
  }

  lemma ConsumerAccesses(m: Params, s: State)
    requires Idle(m, s) && 0 < s.count <= m.max && s.j < m.N()
    ensures var t := Repeat(Stepper(m), s, RunConsumer, 4);
      t == s.(lock := Consumer, c := Load, history := s.history + [Pop], out := t.out, fault := t.fault)
  {
    ConsumerEnters(m, s);
    var s3 := s.(lock := Consumer, c := Access);
    PopStep(m, s3);
    RepeatSplit(Stepper(m), s, RunConsumer, 3, 1);
    assert Repeat(Stepper(m), s3, RunConsumer, 1) == Step(m, s3, RunConsumer);
  }

  lemma ConsumerCounts(m: Params, s: State)
    requires s.lock == Consumer && s.c == Load
    ensures Repeat(Stepper(m), s, RunConsumer, 2) == s.(regC := s.count, count := s.count - 1, c := Signal)
  {
    var step := Stepper(m);
    var s1 := step(s, RunConsumer);
    assert s1 == s.(regC := s.count, c := Store);
    var s2 := step(s1, RunConsumer);
    assert s2 == s1.(count := s.count - 1, c := Signal);
    assert Repeat(step, s, RunConsumer, 2) == Repeat(step, s1, RunConsumer, 1) == s2;
  }

  lemma ConsumerFinishesLap(m: Params, s: State)
    requires s.lock == Consumer && s.c == Load && s.p == LoopTest
    ensures Repeat(Stepper(m), s, RunConsumer, 4)
         == s.(lock := Free, c := LoopTest, regC := s.count, count := s.count - 1, j := s.j + 1)
  {
    var step := Stepper(m);
    ConsumerCounts(m, s);
    var s2 := Repeat(step, s, RunConsumer, 2);
    var s3 := Step(m, s2, RunConsumer);
    assert s3 == s2.(c := Unlock);
    var s4 := Step(m, s3, RunConsumer);
    assert s4 == s3.(lock := Free, j := s.j + 1, c := LoopTest);
    assert Repeat(step, s2, RunConsumer, 2) == Repeat(step, s3, RunConsumer, 1) == s4;
    RepeatSplit(step, s, RunConsumer, 2, 2);
  }

  /** One undisturbed iteration of the producer. */
  lemma ProducerLap(m: Params, s: State) returns (acts: seq<Act>)
    requires Idle(m, s) && 0 <= s.count < m.max && s.i < m.N()
    ensures var t := Fold(Stepper(m), s, acts);
      && Idle(m, t) && t.count == s.count + 1 && t.i == s.i + 1 && t.j == s.j
      && t.history == s.history + [Push]
  {
    var half := Times(RunProducer, 4);
    FoldTimes(Stepper(m), s, RunProducer, 4);
    FoldTimes(Stepper(m), Fold(Stepper(m), s, half), RunProducer, 4);
    ProducerAccesses(m, s);
    ProducerFinishesLap(m, Fold(Stepper(m), s, half));
    FoldSplit(Stepper(m), s, half, half);
    acts := half + half;
  }

  lemma ConsumerLap(m: Params, s: State) returns (acts: seq<Act>)
    requires Idle(m, s) && 0 < s.count <= m.max && s.j < m.N()
    ensures var t := Fold(Stepper(m), s, acts);
      && Idle(m, t) && t.count == s.count - 1 && t.i == s.i && t.j == s.j + 1
      && t.history == s.history + [Pop]
  {
    var half := Times(RunConsumer, 4);
    FoldTimes(Stepper(m), s, RunConsumer, 4);
    FoldTimes(Stepper(m), Fold(Stepper(m), s, half), RunConsumer, 4);
    ConsumerAccesses(m, s);
    ConsumerFinishesLap(m, Fold(Stepper(m), s, half));
    FoldSplit(Stepper(m), s, half, half);
    acts := half + half;
  }

  /** A schedule that follows any given bounded history. */
  lemma {:induction false} ScheduleFor(m: Params, h: seq<Op>) returns (acts: seq<Act>)
    requires m.Valid() && Bounded(h, m.max) && Pushes(h) <= m.N() && Pops(h) <= m.N()
    ensures var s := Run(m, acts);
      Idle(m, s) && s.count == Level(h) && s.i == Pushes(h) && s.j == Pops(h) && s.history == h
  {
    assert h[..|h|] == h;
    if h == [] {
      acts := [];
    } else {
      var g := h[..|h| - 1];
      assert h == g + [h[|h| - 1]];
      BoundedPrefix(h, m.max);
      assert g[..|g|] == g;
      acts := ScheduleFor(m, g);
      var lap;
      if h[|h| - 1] == Push {
        lap := ProducerLap(m, Run(m, acts));
      } else {
        lap := ConsumerLap(m, Run(m, acts));
      }
      FoldSplit(Stepper(m), Init(m), acts, lap);
      acts := acts + lap;
    }
  }

  /** The completed runs produce exactly the complete bounded-stack histories. */
  lemma HistoriesExactly(m: Params, h: seq<Op>)
    requires m.Valid()
    ensures Produces(m, h) <==> Complete(h, m.N(), m.max)
  {
    if Produces(m, h) {
      var acts :| Finished(Run(m, acts)) && Run(m, acts).history == h;
      NoDeadlock(m, acts);
    }
    if Complete(h, m.N(), m.max) {
      var acts := ScheduleFor(m, h);
      FoldSnoc(Stepper(m), Init(m), acts, RunProducer);
      FoldSnoc(Stepper(m), Init(m), acts + [RunProducer], RunConsumer);
      assert Finished(Run(m, acts + [RunProducer] + [RunConsumer]));
    }
  }

  /** A completed run consumes its items in one of the bounded stack orders, and
      each such order is consumed by some completed run. */
  lemma ConsumptionExactly(m: Params, order: seq<nat>)
    requires m.Valid()
    ensures (exists acts :: Finished(Run(m, acts)) && Replay(Run(m, acts).history).popped == order)
       <==> Arrangement(order, m.N()) && AvoidsCAB(order) && OvertakesWithin(order, m.max)
  {
    ConsumableExactly(order, m.N(), m.max);
    if Consumable(order, m.N(), m.max) {
      var h :| Complete(h, m.N(), m.max) && Replay(h).popped == order;
      HistoriesExactly(m, h);
    }
    if acts :| Finished(Run(m, acts)) && Replay(Run(m, acts).history).popped == order {
      HistoriesExactly(m, Run(m, acts).history);
    }
  }
}
