/** The ways in which the signalling program can come to rest, exactly: the
    alarm's expiry does not decide alone whether the group is signalled. */
module GroupSignalOutcomes {
  import opened Schedules
  import opened ProcessGroups
  import opened GroupSignal
  import F = GroupFormation

  datatype Outcome = Signalled | Abandoned

  ghost predicate RestsWith(c: Config, acts: seq<Act>, o: Outcome, w: seq<int>) {
    var s := Run(c, acts);
    && Quiescent(c, s) && s.note.writes == w
    && match o
       case Signalled => s.note.kills == [Shot(c.pid3, {P3, P4, P5})]
       case Abandoned => s.pc0.GaveUp? && s.note.kills == []
  }

  /** The process has everything behind it but to install its handler and sleep. */
  predicate InstallsNext(s: State, p: Proc) {
    match p
    case P3 => s.pc3.Install? case P4 => s.pc4.Install? case P5 => s.pc5.Install? case _ => false
  }

  /** Only process 0 and its alarm may still be able to move, and those in `late`
      that are held up before they install their handlers. */
  ghost predicate OthersRest(c: Config, s: State, late: set<Proc>) {
    forall p: Proc :: p != P0 ==> Step(c, s, Let(p)) == s || (p in late && InstallsNext(s, p))
  }

  /** Process 5 has looked at the cell. */
  predicate HasLooked(pc: Pc5) { pc.Publish? || pc.Install? || pc.Asleep? }

  /** What the other processes cannot change. */
  ghost predicate SameMain(s: State, t: State) {
    t.pc0 == s.pc0 && t.note.alarm == s.note.alarm && t.note.target == s.note.target && t.note.kills == s.note.kills
  }

  lemma OtherStep(c: Config, s: State, p: Proc)
    requires Inv(c, s) && HasArmed(s.pc0) && p != P0
    ensures var t := Step(c, s, Let(p));
      && SameMain(s, t)
      && t.note.writes == s.note.writes + (if Published(t) && !Published(s) then [c.pid3] else [])
      && (Published(s) ==> Published(t))
      && (HasLooked(s.pc5) ==> HasLooked(t.pc5) && t.shown5 == s.shown5)
      && (!HasLooked(s.pc5) ==>
            if HasLooked(t.pc5) then t.shown5 == s.note.cell else t.note.cell == s.note.cell)
  {
    match p
    case P1 => case P2 => case P4 =>
    case P3 => Step3KeepsNote(c, s);
    case P5 =>
      match s.pc5 {
        case Unborn => case Open => case Opening => case Read => case Join =>
        case Show => case Publish => case Install => case Asleep => case Failed => }
  }

  /** Only installing changes who has a handler. */
  lemma OtherHandlers(c: Config, s: State, p: Proc, late: set<Proc>)
    requires Inv(c, s) && p != P0 && s.handlers !! late && !(p in late && InstallsNext(s, p))
    ensures Step(c, s, Let(p)).handlers !! late
  {
    match p
    case P1 => case P2 => case P4 =>
    case P3 =>
      match s.pc3 {
        case Unborn => case Fork => case OwnGroup => case ChildGroup => case Access => case Mkfifo => case Creat =>
        case Opening => case GetGroup => case Write => case Close => case Install => case Asleep => case Failed => }
    case P5 =>
      match s.pc5 {
        case Unborn => case Open => case Opening => case Read => case Join =>
        case Show => case Publish => case Install => case Asleep => case Failed => }
  }

  /** The other processes run until they rest or, if in `late`, are about to
      install their handlers; then the id is published. */
  lemma {:induction false} LetOthersRest(c: Config, s: State, late: set<Proc>) returns (acts: seq<Act>)
    requires Inv(c, s) && HasArmed(s.pc0) && s.handlers !! late
    ensures var t := Fold(Stepper(c), s, acts);
      && Inv(c, t) && OthersRest(c, t, late) && SameMain(s, t) && Published(t) && t.handlers !! late
      && t.note.writes == s.note.writes + (if Published(s) then [] else [c.pid3])
      && t.shown5 == if HasLooked(s.pc5) then s.shown5 else s.note.cell
    decreases Rank(s)
  {
    if p: Proc :| p != P0 && Step(c, s, Let(p)) != s && !(p in late && InstallsNext(s, p)) {
      var t := Stepper(c)(s, Let(p));
      StepKeepsInv(c, s, Let(p));
      StepLowersRank(c, s, Let(p));
      OtherStep(c, s, p);
      OtherHandlers(c, s, p, late);
      var rest := LetOthersRest(c, t, late);
      acts := [Let(p)] + rest;
      assert acts[1..] == rest;
    } else {
      acts := [];
      RestingOthersPublished(c, s, late);
    }
  }

  lemma RestingOthersPublished(c: Config, s: State, late: set<Proc>)
    requires Inv(c, s) && HasArmed(s.pc0) && OthersRest(c, s, late) && s.handlers !! late
    ensures Published(s) && s.handlers * {P3, P4, P5} == {P3, P4, P5} - late
  {
    forall p: Proc ensures F.Step(c, Erase(s), p) == Erase(s) {
      if p != P0 { StepErases(c, s, Let(p)); }
    }
    F.Settled(c, Erase(s));
    assert Step(c, s, Let(P5)) == s || (P5 in late && InstallsNext(s, P5));
    match s.pc5 { case Show => case Publish => case Install => case Asleep => }
    forall p | p in {P3, P4, P5} ensures p in s.handlers <==> p !in late {
      assert p in s.handlers <==> HasHandler(s, p);
      assert Step(c, s, Let(p)) == s || (p in late && InstallsNext(s, p));
    }
  }

  /** Process 0 up to its spin loop. */
  lemma Prologue(c: Config)
    requires c.Valid()
    ensures var s := Run(c, Times(Let(P0), 5));
      && Inv(c, s) && s.pc0.Spin? && s.note.alarm == Armed && s.note.writes == [WAITING] && !Published(s)
      && s.handlers == {P0} && !HasLooked(s.pc5)
  {
    var step := Stepper(c);
    FoldTimes(step, Init(c), Let(P0), 5);
    var s0 := Init(c);
    var s1 := step(s0, Let(P0));
    assert s1 == s0.(note := Note(WAITING, [WAITING], Off, 0, []), pc0 := Pc0.Fork);
    var s2 := step(s1, Let(P0));
    assert s2 == s1.(pc0 := ForkAgain, pc1 := Parent.Fork, pgid := s2.pgid);
    var s3 := step(s2, Let(P0));
    assert s3 == s2.(pc0 := Pc0.Install, pc2 := Parent.Fork, pgid := s3.pgid);
    var s4 := step(s3, Let(P0));
    assert s4 == s3.(pc0 := Arm, handlers := {P0});
    var s5 := step(s4, Let(P0));
    assert s5 == s4.(pc0 := Spin, note := s4.note.(alarm := Armed));
    assert Repeat(step, Init(c), Let(P0), 5) == Repeat(step, s3, Let(P0), 2) == s5;
    RunReaches(c, Times(Let(P0), 5));
  }

  /** The alarm expires, its signal is delivered and the handler runs. */
  lemma AlarmFires(c: Config, s: State)
    requires Inv(c, s) && s.pc0.Spin? && s.note.alarm == Armed
    ensures Fold(Stepper(c), s, [Expire, Deliver, Let(P0)])
         == s.(note := s.note.(alarm := Off, cell := TIMEOUT, writes := s.note.writes + [TIMEOUT]))
    ensures Inv(c, Fold(Stepper(c), s, [Expire, Deliver, Let(P0)]))
  {
    var step := Stepper(c);
    var s1 := step(s, Expire);
    var s2 := step(s1, Deliver);
    var s3 := step(s2, Let(P0));
    assert [Expire, Deliver, Let(P0)][1..] == [Deliver, Let(P0)];
    assert [Deliver, Let(P0)][1..] == [Let(P0)] && [Let(P0)][1..] == [];
    assert Fold(step, s2, [Let(P0)]) == s3;
    assert Fold(step, s1, [Deliver, Let(P0)]) == s3;
    StepKeepsInv(c, s, Expire);
    StepKeepsInv(c, s1, Deliver);
    StepKeepsInv(c, s2, Let(P0));
  }

  lemma Disarms(c: Config, s: State)
    requires s.pc0.Spin? && (s.note.alarm == Off || s.note.alarm == Armed) && s.note.cell != WAITING
    ensures Repeat(Stepper(c), s, Let(P0), 2) == s.(note := s.note.(alarm := Off), pc0 := Returning)
  {
    var s1 := Step(c, s, Let(P0));
    assert s1 == s.(pc0 := Disarm);
  }

  lemma Compares(c: Config, s: State)
    requires s.pc0.Returning? && s.note.alarm == Off
    ensures Repeat(Stepper(c), s, Let(P0), 2) == s.(pc0 := if s.note.cell == TIMEOUT then GaveUp else Pc0.Show)
  {
    var s1 := Step(c, s, Let(P0));
    assert s1 == s.(pc0 := Check);
  }

  /** Process 0 finds the cell changed, disarms and compares it. */
  lemma LeavesSpin(c: Config, s: State)
    requires s.pc0.Spin? && (s.note.alarm == Off || s.note.alarm == Armed) && s.note.cell != WAITING
    ensures Fold(Stepper(c), s, Times(Let(P0), 4))
         == s.(note := s.note.(alarm := Off), pc0 := if s.note.cell == TIMEOUT then GaveUp else Pc0.Show)
  {
    FoldTimes(Stepper(c), s, Let(P0), 4);
    RepeatSplit(Stepper(c), s, Let(P0), 2, 2);
    Disarms(c, s);
    Compares(c, Repeat(Stepper(c), s, Let(P0), 2));
  }

  /** Process 0 reads the id again, to print it and to signal it. */
  lemma AimsAtGroup(c: Config, s: State)
    requires s.pc0.Show? && s.note.alarm == Off
    ensures Fold(Stepper(c), s, Times(Let(P0), 2))
         == s.(shown0 := s.note.cell, note := s.note.(target := s.note.cell), pc0 := Kill)
  {
    FoldTimes(Stepper(c), s, Let(P0), 2);
    var s1 := Step(c, s, Let(P0));
    assert s1 == s.(shown0 := s.note.cell, pc0 := Target);
  }

  lemma Shoots(c: Config, s: State)
    requires s.pc0.Kill? && s.note.alarm == Off
    ensures var t := Fold(Stepper(c), s, Times(Let(P0), 2));
      t == s.(note := s.note.(kills := t.note.kills), pc0 := Pc0.Asleep)
  {
    FoldTimes(Stepper(c), s, Let(P0), 2);
    var s1 := Step(c, s, Let(P0));
    assert s1 == s.(note := s.note.(kills := s1.note.kills), pc0 := Unmap);
  }

  lemma Signals(c: Config, s: State)
    requires s.pc0.Show? && s.note.alarm == Off
    ensures var t := Fold(Stepper(c), s, Times(Let(P0), 2) + Times(Let(P0), 2));
      t == s.(note := t.note, pc0 := Pc0.Asleep, shown0 := s.note.cell)
      && t.note.alarm == Off && t.note.writes == s.note.writes
  {
    var half := Times(Let(P0), 2);
    AimsAtGroup(c, s);
    Shoots(c, Fold(Stepper(c), s, half));
    FoldSplit(Stepper(c), s, half, half);
  }

  /** The rest of the other processes does not depend on process 0's state. */
  lemma RestStays(c: Config, s: State, t: State)
    requires OthersRest(c, s, {}) && t == s.(note := t.note, pc0 := t.pc0, shown0 := t.shown0)
    requires Inv(c, s) && Published(s)
    ensures OthersRest(c, t, {})
  {
    forall p: Proc | p != P0 ensures Step(c, t, Let(p)) == t {
      assert Step(c, s, Let(p)) == s;
      match p
      case P1 => case P2 => case P4 =>
      case P3 =>
        match s.pc3 {
          case Unborn => case Fork => case OwnGroup => case ChildGroup => case Access => case Mkfifo => case Creat =>
          case Opening => case GetGroup => case Write => case Close => case Install => case Asleep => case Failed => }
      case P5 => match s.pc5 { case Install => case Asleep => }
    }
  }

  /** Everything rests once process 0 has finished and the others rest. */
  lemma AllRest(c: Config, s: State)
    requires OthersRest(c, s, {}) && (s.pc0.Asleep? || s.pc0.GaveUp?) && s.note.alarm == Off
    ensures Quiescent(c, s)
  {
    forall p: Proc ensures Step(c, s, Let(p)) == s {
    }
  }

  /** Process 0 leaves the spin loop and finishes while the others rest. */
  lemma MainFinishes(c: Config, acts: seq<Act>) returns (all: seq<Act>, o: Outcome)
    requires c.Valid()
    requires var s := Run(c, acts);
      OthersRest(c, s, {}) && Published(s) && s.pc0.Spin? && (s.note.alarm == Off || s.note.alarm == Armed)
    ensures o == if Run(c, acts).note.cell == TIMEOUT then Abandoned else Signalled
    ensures RestsWith(c, all, o, Run(c, acts).note.writes) && Run(c, all).shown5 == Run(c, acts).shown5
  {
    var step, s := Stepper(c), Run(c, acts);
    RunReaches(c, acts);
    LeavesSpin(c, s);
    FoldSplit(step, Init(c), acts, Times(Let(P0), 4));
    all := acts + Times(Let(P0), 4);
    var t := Run(c, all);
    RestStays(c, s, t);
    RunReaches(c, all);
    if s.note.cell == TIMEOUT {
      o := Abandoned;
      AllRest(c, t);
    } else {
      o := Signalled;
      Signals(c, t);
      var shot := Times(Let(P0), 2) + Times(Let(P0), 2);
      FoldSplit(step, Init(c), all, shot);
      all := all + shot;
      RestStays(c, t, Run(c, all));
      AllRest(c, Run(c, all));
      RunReaches(c, all);
      Settled(c, Run(c, all));
    }
  }

  /** No alarm: the group is signalled. */
  lemma NoAlarm(c: Config) returns (acts: seq<Act>)
    requires c.Valid()
    ensures RestsWith(c, acts, Signalled, [WAITING, c.pid3]) && Run(c, acts).shown5 == WAITING
  {
    Prologue(c);
    var start := Times(Let(P0), 5);
    var others := LetOthersRest(c, Run(c, start), {});
    FoldSplit(Stepper(c), Init(c), start, others);
    RunReaches(c, start + others);
    var o;
    acts, o := MainFinishes(c, start + others);
  }

  /** The alarm fires, but process 5 publishes before process 0 looks again;
      process 5 then prints -2, as a comment of the program suspects. */
  lemma AlarmThenPublished(c: Config) returns (acts: seq<Act>)
    requires c.Valid()
    ensures RestsWith(c, acts, Signalled, [WAITING, TIMEOUT, c.pid3]) && Run(c, acts).shown5 == TIMEOUT
  {
    Prologue(c);
    var start := Times(Let(P0), 5);
    AlarmFires(c, Run(c, start));
    FoldSplit(Stepper(c), Init(c), start, [Expire, Deliver, Let(P0)]);
    start := start + [Expire, Deliver, Let(P0)];
    var others := LetOthersRest(c, Run(c, start), {});
    FoldSplit(Stepper(c), Init(c), start, others);
    RunReaches(c, start + others);
    var o;
    acts, o := MainFinishes(c, start + others);
  }

  /** The alarm fires just after process 5 has published: process 0 gives up. */
  lemma PublishedThenAlarm(c: Config) returns (acts: seq<Act>)
    requires c.Valid()
    ensures RestsWith(c, acts, Abandoned, [WAITING, c.pid3, TIMEOUT])
  {
    Prologue(c);
    var start := Times(Let(P0), 5);
    var others := LetOthersRest(c, Run(c, start), {});
    FoldSplit(Stepper(c), Init(c), start, others);
    start := start + others;
    var s := Run(c, start);
    AlarmFires(c, s);
    FoldSplit(Stepper(c), Init(c), start, [Expire, Deliver, Let(P0)]);
    RestStays(c, s, Run(c, start + [Expire, Deliver, Let(P0)]));
    var o;
    acts, o := MainFinishes(c, start + [Expire, Deliver, Let(P0)]);
  }

  /** The alarm fires and process 0 gives up before process 5 publishes. */
  lemma AlarmThenGaveUp(c: Config) returns (acts: seq<Act>)
    requires c.Valid()
    ensures RestsWith(c, acts, Abandoned, [WAITING, TIMEOUT, c.pid3])
  {
    var step := Stepper(c);
    Prologue(c);
    var start := Times(Let(P0), 5);
    AlarmFires(c, Run(c, start));
    FoldSplit(step, Init(c), start, [Expire, Deliver, Let(P0)]);
    start := start + [Expire, Deliver, Let(P0)];
    LeavesSpin(c, Run(c, start));
    FoldSplit(step, Init(c), start, Times(Let(P0), 4));
    start := start + Times(Let(P0), 4);
    RunReaches(c, start);
    var others := LetOthersRest(c, Run(c, start), {});
    FoldSplit(step, Init(c), start, others);
    acts := start + others;
    AllRest(c, Run(c, acts));
  }

  predicate Possible(id: int, o: Outcome, w: seq<int>) {
    match o
    case Signalled => w == [WAITING, id] || w == [WAITING, TIMEOUT, id]
    case Abandoned => w == [WAITING, TIMEOUT, id] || w == [WAITING, id, TIMEOUT]
  }

  /** The outcomes, exactly.  The same history of the cell can end either way,
      and the group can be given up although it was ready. */
  lemma OutcomesExactly(c: Config, o: Outcome, w: seq<int>)
    requires c.Valid()
    ensures (exists acts :: RestsWith(c, acts, o, w)) <==> Possible(c.pid3, o, w)
  {
    if acts :| RestsWith(c, acts, o, w) {
      RunReaches(c, acts);
      Settled(c, Run(c, acts));
    }
    if Possible(c.pid3, o, w) {
      var a := NoAlarm(c);
      var b := AlarmThenPublished(c);
      var d := PublishedThenAlarm(c);
      var e := AlarmThenGaveUp(c);
    }
  }

  /** What process 5 can print of the cell in runs that end with the signal. */
  lemma ShownExactly(c: Config, v: int)
    requires c.Valid()
    ensures (exists acts, w :: RestsWith(c, acts, Signalled, w) && Run(c, acts).shown5 == v)
       <==> v == WAITING || v == TIMEOUT
  {
    if acts, w :| RestsWith(c, acts, Signalled, w) && Run(c, acts).shown5 == v {
      RunReaches(c, acts);
      Settled(c, Run(c, acts));
    }
    if v == WAITING || v == TIMEOUT {
      var a := NoAlarm(c);
      var b := AlarmThenPublished(c);
      assert RestsWith(c, a, Signalled, [WAITING, c.pid3]) && RestsWith(c, b, Signalled, [WAITING, TIMEOUT, c.pid3]);
    }
  }

  // ---------------------------------------------------------------------------
  // Expiry during `alarm(0)`
  // ---------------------------------------------------------------------------

  /** From every state some schedule comes to rest. */
  lemma {:induction false} ComeToRest(c: Config, s: State) returns (acts: seq<Act>)
    requires Inv(c, s)
    ensures Quiescent(c, Fold(Stepper(c), s, acts))
    decreases Rank(s)
  {
    if a: Act :| !a.Expire? && Step(c, s, a) != s {
      StepKeepsInv(c, s, a);
      StepLowersRank(c, s, a);
      var t := Stepper(c)(s, a);
      var rest := ComeToRest(c, t);
      acts := [a] + rest;
      assert acts[1..] == rest;
    } else {
      acts := [];
    }
  }

  /** The alarm can expire when process 0 has seen the id and is about to call
      `alarm(0)`; then the group is abandoned. */
  lemma AlarmAtDisarm(c: Config) returns (acts: seq<Act>, rest: seq<Act>)
    requires c.Valid()
    ensures Run(c, acts).pc0.Disarm? && Run(c, acts).note.alarm == Armed
    ensures RestsWith(c, acts + [Expire] + rest, Abandoned, [WAITING, c.pid3, TIMEOUT])
  {
    var step := Stepper(c);
    Prologue(c);
    var start := Times(Let(P0), 5);
    var others := LetOthersRest(c, Run(c, start), {});
    FoldSplit(step, Init(c), start, others);
    RunReaches(c, start + others);
    FoldSnoc(step, Init(c), start + others, Let(P0));
    acts := start + others + [Let(P0)];
    assert Run(c, acts) == Run(c, start + others).(pc0 := Disarm);
    FoldSnoc(step, Init(c), acts, Expire);
    var t := Run(c, acts + [Expire]);
    assert t.note.alarm == Pending && Published(t);
    RunReaches(c, acts + [Expire]);
    rest := ComeToRest(c, t);
    FoldSplit(step, Init(c), acts + [Expire], rest);
    ExpiryAfterPublicationAbandons(c, acts + [Expire], rest);
  }

  // ---------------------------------------------------------------------------
  // Whom the signal finds prepared
  // ---------------------------------------------------------------------------

  /** Process 0 is about to send the signal, and exactly the members in `ready`
      have installed their handlers. */
  ghost predicate AboutToSignal(c: Config, acts: seq<Act>, ready: set<Proc>) {
    var s := Run(c, acts);
    && s.note.kills == [] && Run(c, acts + [Let(P0)]).note.kills == [Shot(c.pid3, {P3, P4, P5})]
    && Members(s.pgid, c.pid3) * s.handlers == ready
  }

  /** A run in which the members outside `ready` are late. */
  lemma PublishedBeforeReady(c: Config, ready: set<Proc>) returns (acts: seq<Act>)
    requires c.Valid() && ready <= {P3, P4, P5}
    ensures var s := Run(c, acts);
      && Inv(c, s) && s.pc0.Spin? && s.note.alarm == Armed && s.note.writes == [WAITING, c.pid3]
      && s.handlers * {P3, P4, P5} == ready
  {
    var late := {P3, P4, P5} - ready;
    Prologue(c);
    var start := Times(Let(P0), 5);
    var s := Run(c, start);
    assert s.handlers !! late;
    var others := LetOthersRest(c, s, late);
    FoldSplit(Stepper(c), Init(c), start, others);
    acts := start + others;
    RestingOthersPublished(c, Run(c, acts), late);
    assert {P3, P4, P5} - late == ready;
  }

  lemma SignalsReady(c: Config, ready: set<Proc>) returns (acts: seq<Act>)
    requires c.Valid() && ready <= {P3, P4, P5}
    ensures AboutToSignal(c, acts, ready)
  {
    var start := PublishedBeforeReady(c, ready);
    acts := MainAims(c, start);
    ShotHits(c, acts);
  }

  /** Process 0 leaves the spin loop and comes to the signal. */
  lemma MainAims(c: Config, acts: seq<Act>) returns (all: seq<Act>)
    requires var s := Run(c, acts);
      s.pc0.Spin? && s.note.alarm == Armed && s.note.cell != WAITING && s.note.cell != TIMEOUT
    ensures Run(c, all).pc0.Kill? && Run(c, all).note.alarm == Off && Run(c, all).handlers == Run(c, acts).handlers
  {
    LeavesSpin(c, Run(c, acts));
    FoldSplit(Stepper(c), Init(c), acts, Times(Let(P0), 4));
    all := acts + Times(Let(P0), 4);
    AimsAtGroup(c, Run(c, all));
    FoldSplit(Stepper(c), Init(c), all, Times(Let(P0), 2));
    all := all + Times(Let(P0), 2);
  }

  lemma ShotHits(c: Config, acts: seq<Act>)
    requires c.Valid() && Run(c, acts).pc0.Kill? && Run(c, acts).note.alarm == Off
    ensures Run(c, acts).note.kills == [] && Run(c, acts + [Let(P0)]).note.kills == [Shot(c.pid3, {P3, P4, P5})]
    ensures Members(Run(c, acts).pgid, c.pid3) == {P3, P4, P5}
  {
    FoldSnoc(Stepper(c), Init(c), acts, Let(P0));
    RunReaches(c, acts);
    F.NewGroup(c, Erase(Run(c, acts)));
  }

  /** Any subset of the group can be prepared for the signal when it is sent, also
      none of them: publication waits for nobody's handler, not even process 5's. */
  lemma ReadyExactly(c: Config, ready: set<Proc>)
    requires c.Valid()
    ensures (exists acts :: AboutToSignal(c, acts, ready)) <==> ready <= {P3, P4, P5}
  {
    if acts :| AboutToSignal(c, acts, ready) {
      RunReaches(c, acts);
      F.NewGroup(c, Erase(Run(c, acts)));
    }
    if ready <= {P3, P4, P5} {
      var acts := SignalsReady(c, ready);
    }
  }
}
