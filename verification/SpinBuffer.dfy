/** The bounded buffer whose threads test the fill count in a spin loop before
    they take the lock.  Nothing but the restriction to one producer and one
    consumer keeps the outcome of the test valid until the lock is held.

    A schedule is a sequence of choices of who moves next; a thread that spins,
    is blocked or is done changes nothing. */
module SpinBuffer {
  import opened BoundedStack
  import opened Schedules
  import CondvarBuffer

  datatype Owner = Free | Producer | Consumer

  datatype Pc = LoopTest | Spin | Lock | Access | Load | Store | Unlock | Done

  datatype Act = RunProducer | RunConsumer

  datatype State = State(
    buf: seq<char>,
    count: int,
    lock: Owner,
    p: Pc, i: nat, regP: int,
    c: Pc, j: nat, regC: int,
    history: seq<Op>,
    out: seq<char>,
    fault: bool)

  function Init(m: Params): State {
    State(m.junk, 0, Free, LoopTest, 0, 0, LoopTest, 0, 0, [], [], false)
  }

  function StepProducer(m: Params, s: State): State {
    match s.p
    case LoopTest => s.(p := if s.i < m.N() then Spin else Done)
    case Spin => s.(p := if s.count == m.max then Spin else Lock)
    case Lock => if s.lock == Free then s.(lock := Producer, p := Access) else s
    case Access =>
      var inside := 0 <= s.count < |s.buf| && s.i < m.N();
      s.(buf := if inside then s.buf[s.count := m.input[s.i]] else s.buf,
         fault := s.fault || !inside, history := s.history + [Push], p := Load)
    case Load => s.(regP := s.count, p := Store)
    case Store => s.(count := s.regP + 1, p := Unlock)
    case Unlock => s.(lock := Free, i := s.i + 1, p := LoopTest)
    case Done => s
  }

  function StepConsumer(m: Params, s: State): State {
    match s.c
    case LoopTest => s.(c := if s.j < m.N() then Spin else Done)
    case Spin => s.(c := if s.count == 0 then Spin else Lock)
    case Lock => if s.lock == Free then s.(lock := Consumer, c := Access) else s
    case Access =>
      var inside := 0 < s.count <= |s.buf|;
      s.(out := if inside then s.out + [s.buf[s.count - 1]] else s.out,
         fault := s.fault || !inside, history := s.history + [Pop], c := Load)
    case Load => s.(regC := s.count, c := Store)
    case Store => s.(count := s.regC - 1, c := Unlock)
    case Unlock => s.(lock := Free, j := s.j + 1, c := LoopTest)
    case Done => s
  }

  function Step(m: Params, s: State, a: Act): State {
    match a
    case RunProducer => StepProducer(m, s)
    case RunConsumer => StepConsumer(m, s)
  }

  function Stepper(m: Params): (State, Act) -> State { (s, a) => Step(m, s, a) }

  function Run(m: Params, acts: seq<Act>): State { Fold(Stepper(m), Init(m), acts) }

  predicate Finished(s: State) { s.p == Done && s.c == Done }

  /** Every thread is blocked, spinning in vain or done. */
  predicate Quiescent(m: Params, s: State) { StepProducer(m, s) == s && StepConsumer(m, s) == s }

  // ---------------------------------------------------------------------------
  // What every step keeps
  // ---------------------------------------------------------------------------

  ghost predicate Holds(pc: Pc) { pc in {Access, Load, Store, Unlock} }

  ghost predicate Accessed(pc: Pc) { pc in {Load, Store, Unlock} }

  /** The spin test has succeeded and its outcome is still being relied on. */
  ghost predicate Relying(pc: Pc) { pc in {Lock, Access, Load, Store} }

  ghost function Moved(pc: Pc, i: nat): nat { i + if Accessed(pc) then 1 else 0 }

  ghost predicate Looping(m: Params, pc: Pc, i: nat) {
    && i <= m.N() && (pc == Done ==> i == m.N())
    && (pc != LoopTest && pc != Done ==> i < m.N())
  }

  ghost function Fill(s: State): int {
    s.count + (if s.p == Load || s.p == Store then 1 else 0) - (if s.c == Load || s.c == Store then 1 else 0)
  }

  /** The test made outside the lock stays true until the thread itself stores. */
  ghost predicate Locking(m: Params, s: State) {
    && (s.lock == Producer <==> Holds(s.p)) && (s.lock == Consumer <==> Holds(s.c))
    && Looping(m, s.p, s.i) && Looping(m, s.c, s.j)
    && (s.p == Store ==> s.regP == s.count) && (s.c == Store ==> s.regC == s.count)
    && 0 <= s.count <= m.max
    && (Relying(s.p) ==> s.count < m.max) && (Relying(s.c) ==> s.count > 0)
  }

  ghost predicate Contents(m: Params, s: State) {
    && Pushes(s.history) == Moved(s.p, s.i) && Pops(s.history) == Moved(s.c, s.j)
    && Level(s.history) == Fill(s) && !s.fault
    && Follows(m, s.history, s.buf, s.out)
  }

  ghost predicate Inv(m: Params, s: State) {
    m.Valid() && Locking(m, s) && Contents(m, s)
  }

  lemma InitInv(m: Params)
    requires m.Valid()
    ensures Inv(m, Init(m))
  {
    FollowsNothing(m);
  }

  lemma StepKeepsLocking(m: Params, s: State, a: Act)
    requires m.Valid() && Locking(m, s)
    ensures Locking(m, Step(m, s, a))
  {
  }

  lemma OtherStepsAreQuiet(m: Params, s: State, a: Act)
    requires Locking(m, s)
    requires !(a == RunProducer && s.p == Access) && !(a == RunConsumer && s.c == Access)
    ensures var t := Step(m, s, a);
      && t.history == s.history && t.buf == s.buf && t.out == s.out && t.fault == s.fault
      && Fill(t) == Fill(s) && Moved(t.p, t.i) == Moved(s.p, s.i) && Moved(t.c, t.j) == Moved(s.c, s.j)
  {
  }

  lemma PushStep(m: Params, s: State)
    requires s.p == Access && 0 <= s.count < m.max == |s.buf| && s.i < m.N()
    ensures Step(m, s, RunProducer)
         == s.(buf := s.buf[s.count := m.input[s.i]], history := s.history + [Push], p := Load)
  {
  }

  lemma PopStep(m: Params, s: State)
    requires s.c == Access && 0 < s.count <= m.max == |s.buf|
    ensures Step(m, s, RunConsumer)
         == s.(out := s.out + [s.buf[s.count - 1]], history := s.history + [Pop], c := Load)
  {
  }

  lemma PushNow(m: Params, s: State)
    requires Locking(m, s) && s.p == Access && |s.buf| == m.max
    ensures Fill(s) == s.count
    ensures Step(m, s, RunProducer)
         == s.(buf := s.buf[s.count := m.input[s.i]], history := s.history + [Push], p := Load)
  {
    PushStep(m, s);
  }

  lemma PushKeepsContents(m: Params, s: State)
    requires Inv(m, s) && s.p == Access
    ensures Contents(m, Step(m, s, RunProducer))
  {
    PushNow(m, s);
    Snoc(s.history, Push);
    FollowsPush(m, s.history, s.buf, s.out);
  }

  lemma PopNow(m: Params, s: State)
    requires Locking(m, s) && s.c == Access && |s.buf| == m.max
    ensures Fill(s) == s.count
    ensures Step(m, s, RunConsumer)
         == s.(out := s.out + [s.buf[s.count - 1]], history := s.history + [Pop], c := Load)
  {
    PopStep(m, s);
  }

  lemma PopKeepsContents(m: Params, s: State)
    requires Inv(m, s) && s.c == Access
    ensures Contents(m, Step(m, s, RunConsumer))
  {
    PopNow(m, s);
    Snoc(s.history, Pop);
    FollowsPop(m, s.history, s.buf, s.out);
  }

  lemma StepKeepsInv(m: Params, s: State, a: Act)
    requires Inv(m, s)
    ensures Inv(m, Step(m, s, a))
  {
    StepKeepsLocking(m, s, a);
    if a == RunProducer && s.p == Access {
      PushKeepsContents(m, s);
    } else if a == RunConsumer && s.c == Access {
      PopKeepsContents(m, s);
    } else {
      OtherStepsAreQuiet(m, s, a);
    }
  }

  lemma RunReaches(m: Params, acts: seq<Act>)
    requires m.Valid()
    ensures Inv(m, Run(m, acts))
  {
    InitInv(m);
    forall s, a | Inv(m, s) ensures Inv(m, Stepper(m)(s, a)) {
      StepKeepsInv(m, s, a);
    }
    FoldKeeps(Stepper(m), s => Inv(m, s), Init(m), acts);
  }

  /** Over all interleavings: when a thread holds the lock and is about to access
      the array, the test it made earlier still holds, so no access is out of
      bounds; the two spin conditions never hold together; the array is the
      stack of the lock-order history, and the output what was popped. */
  lemma TestOutsideLockIsSafe(m: Params, acts: seq<Act>)
    requires m.Valid()
    ensures var s := Run(m, acts); var r := Replay(s.history);
      && !s.fault && 0 <= s.count <= m.max == |s.buf| && Bounded(s.history, m.max)
      && (s.p == Access ==> s.count < m.max) && (s.c == Access ==> s.count > 0)
      && !(s.p == Spin && StepProducer(m, s) == s && s.c == Spin && StepConsumer(m, s) == s)
      && (s.lock == Free ==>
            && |r.stack| == s.count
            && forall k :: 0 <= k < s.count ==> r.stack[k] < m.N() && s.buf[k] == m.input[r.stack[k]])
      && |s.out| == |r.popped|
      && forall k :: 0 <= k < |s.out| ==> r.popped[k] < m.N() && s.out[k] == m.input[r.popped[k]]
  {
    RunReaches(m, acts);
  }

  /** Mutual exclusion, under any schedule: the array is accessed and the count
      changed only with the lock held, while the spin test runs without it. */
  lemma CriticalSections(m: Params, acts: seq<Act>)
    requires m.Valid()
    ensures var s := Run(m, acts);
      && (s.p in {Access, Load, Store} ==> s.lock == Producer)
      && (s.c in {Access, Load, Store} ==> s.lock == Consumer)
      && (s.p in {LoopTest, Spin, Done} ==> s.lock != Producer)
      && (s.c in {LoopTest, Spin, Done} ==> s.lock != Consumer)
  {
    RunReaches(m, acts);
  }

  /** Some thread can make progress until both are done. */
  lemma Settled(m: Params, s: State)
    requires Inv(m, s) && Quiescent(m, s)
    ensures Finished(s) && s.count == 0 && Complete(s.history, m.N(), m.max) && |s.out| == m.N()
  {
    ReplayOrdered(s.history, m.max);
    match s.lock case Free => case Producer => case Consumer =>
  }

  lemma ProgressUntilDone(m: Params, acts: seq<Act>)
    requires m.Valid() && Quiescent(m, Run(m, acts))
    ensures var s := Run(m, acts);
      Finished(s) && s.count == 0 && Complete(s.history, m.N(), m.max) && |s.out| == m.N()
  {
    RunReaches(m, acts);
    Settled(m, Run(m, acts));
  }

  function PcRank(pc: Pc): nat {
    match pc
    case LoopTest => 7 case Spin => 6 case Lock => 5 case Access => 4
    case Load => 3 case Store => 2 case Unlock => 1 case Done => 0
  }

  function Rank(m: Params, s: State): int {
    8 * (m.N() - s.i) + PcRank(s.p) + 8 * (m.N() - s.j) + PcRank(s.c)
  }

  lemma StepLowersRank(m: Params, s: State, a: Act)
    requires Inv(m, s) && Step(m, s, a) != s
    ensures Rank(m, Step(m, s, a)) < Rank(m, s)
  {
  }

  /** Spinning apart, no scheduling makes more than 16 N + 14 moves. */
  lemma ProgressIsBounded(m: Params, acts: seq<Act>)
    requires m.Valid()
    ensures Moves(Stepper(m), Init(m), acts) <= 16 * m.N() + 14
  {
    InitInv(m);
    forall s, a | Inv(m, s) ensures Inv(m, Stepper(m)(s, a)) {
      StepKeepsInv(m, s, a);
    }
    forall s, a | Inv(m, s) && Stepper(m)(s, a) != s
      ensures Rank(m, Stepper(m)(s, a)) < Rank(m, s)
    {
      StepLowersRank(m, s, a);
    }
    MovesBounded(Stepper(m), s => Inv(m, s), s => Rank(m, s), a => true, Init(m), acts);
  }

  // ---------------------------------------------------------------------------
  // Which histories the program can produce
  // ---------------------------------------------------------------------------

  ghost predicate Produces(m: Params, h: seq<Op>) {
    exists acts :: Finished(Run(m, acts)) && Run(m, acts).history == h
  }

  ghost predicate Idle(m: Params, s: State) {
    s.lock == Free && s.p == LoopTest && s.c == LoopTest && |s.buf| == m.max
  }

  lemma ProducerEnters(m: Params, s: State)
    requires Idle(m, s) && 0 <= s.count < m.max && s.i < m.N()
    ensures Repeat(Stepper(m), s, RunProducer, 3) == s.(lock := Producer, p := Access)
  {
    var s1 := Step(m, s, RunProducer);
    assert s1 == s.(p := Spin);
    var s2 := Step(m, s1, RunProducer);
    assert s2 == s1.(p := Lock);
    var s3 := Step(m, s2, RunProducer);
    assert s3 == s.(lock := Producer, p := Access);
    var step := Stepper(m);
    assert Repeat(step, s, RunProducer, 3) == Repeat(step, s1, RunProducer, 2);
    assert Repeat(step, s1, RunProducer, 2) == Repeat(step, s2, RunProducer, 1) == s3;
  }

  lemma ProducerAccesses(m: Params, s: State)
    requires Idle(m, s) && 0 <= s.count < m.max && s.i < m.N()
    ensures var t := Repeat(Stepper(m), s, RunProducer, 4);
      && t == s.(lock := Producer, p := Load, history := s.history + [Push], buf := t.buf, fault := t.fault)
      && |t.buf| == m.max
  {
    ProducerEnters(m, s);
    var s3 := s.(lock := Producer, p := Access);
    PushStep(m, s3);
    RepeatSplit(Stepper(m), s, RunProducer, 3, 1);
    assert Repeat(Stepper(m), s3, RunProducer, 1) == Step(m, s3, RunProducer);
  }

  lemma ProducerFinishesLap(m: Params, s: State)
    requires s.p == Load && s.c == LoopTest
    ensures Repeat(Stepper(m), s, RunProducer, 3)
         == s.(lock := Free, p := LoopTest, regP := s.count, count := s.count + 1, i := s.i + 1)
  {
    var s1 := Step(m, s, RunProducer);
    assert s1 == s.(regP := s.count, p := Store);
    var s2 := Step(m, s1, RunProducer);
    assert s2 == s1.(count := s.count + 1, p := Unlock);
  }

  lemma ConsumerEnters(m: Params, s: State)
    requires Idle(m, s) && 0 < s.count <= m.max && s.j < m.N()
    ensures Repeat(Stepper(m), s, RunConsumer, 3) == s.(lock := Consumer, c := Access)
  {
    var s1 := Step(m, s, RunConsumer);
    assert s1 == s.(c := Spin);
    var s2 := Step(m, s1, RunConsumer);
    assert s2 == s1.(c := Lock);
    var s3 := Step(m, s2, RunConsumer);
    assert s3 == s.(lock := Consumer, c := Access);
    var step := Stepper(m);
    assert Repeat(step, s, RunConsumer, 3) == Repeat(step, s1, RunConsumer, 2);
    assert Repeat(step, s1, RunConsumer, 2) == Repeat(step, s2, RunConsumer, 1) == s3;
  }

  lemma ConsumerAccesses(m: Params, s: State)
    requires Idle(m, s) && 0 < s.count <= m.max && s.j < m.N()
    ensures var t := Repeat(Stepper(m), s, RunConsumer, 4);
      t == s.(lock := Consumer, c := Load, history := s.history + [Pop], out := t.out, fault := t.fault)
  {
    ConsumerEnters(m, s);
    var s3 := s.(lock := Consumer, c := Access);
    PopStep(m, s3);
    RepeatSplit(Stepper(m), s, RunConsumer, 3, 1);
    assert Repeat(Stepper(m), s3, RunConsumer, 1) == Step(m, s3, RunConsumer);
  }

  lemma ConsumerFinishesLap(m: Params, s: State)
    requires s.c == Load && s.p == LoopTest
    ensures Repeat(Stepper(m), s, RunConsumer, 3)
         == s.(lock := Free, c := LoopTest, regC := s.count, count := s.count - 1, j := s.j + 1)
  {
    var s1 := Step(m, s, RunConsumer);
    assert s1 == s.(regC := s.count, c := Store);
    var s2 := Step(m, s1, RunConsumer);
    assert s2 == s1.(count := s.count - 1, c := Unlock);
  }

  lemma ProducerLap(m: Params, s: State) returns (acts: seq<Act>)
    requires Idle(m, s) && 0 <= s.count < m.max && s.i < m.N()
    ensures var t := Fold(Stepper(m), s, acts);
      && Idle(m, t) && t.count == s.count + 1 && t.i == s.i + 1 && t.j == s.j
      && t.history == s.history + [Push]
  {
    var t := Fold(Stepper(m), s, Times(RunProducer, 4));
    FoldTimes(Stepper(m), s, RunProducer, 4);
    FoldTimes(Stepper(m), t, RunProducer, 3);
    ProducerAccesses(m, s);
    ProducerFinishesLap(m, t);
    FoldSplit(Stepper(m), s, Times(RunProducer, 4), Times(RunProducer, 3));
    acts := Times(RunProducer, 4) + Times(RunProducer, 3);
  }

  lemma ConsumerLap(m: Params, s: State) returns (acts: seq<Act>)
    requires Idle(m, s) && 0 < s.count <= m.max && s.j < m.N()
    ensures var t := Fold(Stepper(m), s, acts);
      && Idle(m, t) && t.count == s.count - 1 && t.i == s.i && t.j == s.j + 1
      && t.history == s.history + [Pop]
  {
    var t := Fold(Stepper(m), s, Times(RunConsumer, 4));
    FoldTimes(Stepper(m), s, RunConsumer, 4);
    FoldTimes(Stepper(m), t, RunConsumer, 3);
    ConsumerAccesses(m, s);
    ConsumerFinishesLap(m, t);
    FoldSplit(Stepper(m), s, Times(RunConsumer, 4), Times(RunConsumer, 3));
    acts := Times(RunConsumer, 4) + Times(RunConsumer, 3);
  }

  /** A schedule that follows any given bounded history. */
  lemma {:induction false} ScheduleFor(m: Params, h: seq<Op>) returns (acts: seq<Act>)
    requires m.Valid() && Bounded(h, m.max) && Pushes(h) <= m.N() && Pops(h) <= m.N()
    ensures var s := Run(m, acts);
      Idle(m, s) && s.count == Level(h) && s.i == Pushes(h) && s.j == Pops(h) && s.history == h
  {
    assert h[..|h|] == h;
    if h == [] {
      acts := [];
    } else {
      var g := h[..|h| - 1];
      assert h == g + [h[|h| - 1]];
      BoundedPrefix(h, m.max);
      assert g[..|g|] == g;
      acts := ScheduleFor(m, g);
      var lap;
      if h[|h| - 1] == Push {
        lap := ProducerLap(m, Run(m, acts));
      } else {
        lap := ConsumerLap(m, Run(m, acts));
      }
      FoldSplit(Stepper(m), Init(m), acts, lap);
      acts := acts + lap;
    }
  }

  lemma HistoriesExactly(m: Params, h: seq<Op>)
    requires m.Valid()
    ensures Produces(m, h) <==> Complete(h, m.N(), m.max)
  {
    if Produces(m, h) {
      var acts :| Finished(Run(m, acts)) && Run(m, acts).history == h;
      ProgressUntilDone(m, acts);
    }
    if Complete(h, m.N(), m.max) {
      var acts := ScheduleFor(m, h);
      FoldSnoc(Stepper(m), Init(m), acts, RunProducer);
      FoldSnoc(Stepper(m), Init(m), acts + [RunProducer], RunConsumer);
      assert Finished(Run(m, acts + [RunProducer] + [RunConsumer]));
    }
  }

  /** The spinning and the waiting program complete exactly the same histories. */
  lemma SameHistoriesAsCondvar(m: Params, h: seq<Op>)
    requires m.Valid()
    ensures Produces(m, h) <==> CondvarBuffer.Produces(m, h)
  {
    HistoriesExactly(m, h);
    CondvarBuffer.HistoriesExactly(m, h);
  }
}
