/** The group formation of module GroupFormation with a notification added.
    Process 5 publishes the group's id in a cell of shared memory; process 0
    spins on the cell, guarded by an alarm whose handler overwrites the cell, and
    finally signals the group.

    A choice of the scheduler lets a process run, lets the armed alarm expire, or
    delivers the pending alarm signal to process 0.  The signal interrupts
    process 0 at any instruction, but a system call does not return to user code
    while the signal is pending. */
module GroupSignal {
  import opened Schedules
  import opened ProcessGroups
  import F = GroupFormation

  datatype Pc0 =
    | InitCell | Fork | ForkAgain | Install | Arm | Spin | Disarm | Returning | Check | Show
    | Target | Kill | Unmap | Asleep | GaveUp

  /** Processes 1 and 2. */
  datatype Parent = Unborn | Fork | Asleep

  datatype Pc3 =
    | Unborn | Fork | OwnGroup | ChildGroup | Access | Mkfifo | Creat | Opening | GetGroup | Write | Close
    | Install | Asleep | Failed

  datatype Pc4 = Unborn | Install | Asleep

  datatype Pc5 = Unborn | Open | Opening | Read | Join | Show | Publish | Install | Asleep | Failed

  /** Delivering the signal runs the handler, or ends process 0 if none is
      installed. */
  datatype Alarm = Off | Armed | Pending | Handling | Fatal

  datatype Act = Let(p: Proc) | Expire | Deliver

  /** A signal sent to a process group, with the members it had at that moment. */
  datatype Shot = Shot(group: int, members: set<Proc>)

  const WAITING := -1
  const TIMEOUT := -2

  /** The shared cell with the history of the values stored in it, the alarm of
      process 0, the id it read to be signalled, and the signals it sent. */
  datatype Note = Note(cell: int, writes: seq<int>, alarm: Alarm, target: int, kills: seq<Shot>)

  /** `handlers` are the processes that have installed their signal handler, for
      SIGALRM in process 0 and for SIGUSR1 in 3, 4 and 5; `shown0` and `shown5` are
      the values of the cell that processes 0 and 5 print. */
  datatype State = State(
    pc0: Pc0, pc1: Parent, pc2: Parent, pc3: Pc3, pc4: Pc4, pc5: Pc5,
    pgid: map<Proc, int>,
    fifo: bool,
    pipe: Pipe,
    own: int,
    got: int,
    handlers: set<Proc>,
    shown0: int,
    shown5: int,
    note: Note)

  function Init(c: Config): State {
    State(InitCell, Parent.Unborn, Parent.Unborn, Pc3.Unborn, Pc4.Unborn, Pc5.Unborn,
          map[P0 := c.group0], c.fifoThere, Empty, 0, 0, {}, 0, 0, Note(0, [], Off, 0, []))
  }

  function Store(n: Note, v: int): Note { n.(cell := v, writes := n.writes + [v]) }

  /** Process 0: its handler if that is running, else its main program. */
  function Step0(c: Config, s: State): State {
    var n := s.note;
    if n.alarm == Handling then s.(note := Store(n, TIMEOUT).(alarm := Off))
    else if n.alarm == Fatal then s
    else match s.pc0
      case InitCell => s.(note := Store(n, WAITING), pc0 := Pc0.Fork)
      case Fork => s.(pc0 := ForkAgain, pc1 := Parent.Fork, pgid := Inherit(s.pgid, P0, P1))
      case ForkAgain => s.(pc0 := Pc0.Install, pc2 := Parent.Fork, pgid := Inherit(s.pgid, P0, P2))
      case Install => s.(handlers := s.handlers + {P0}, pc0 := Arm)
      case Arm => s.(note := n.(alarm := Armed), pc0 := Spin)
      case Spin => if n.cell == WAITING then s else s.(pc0 := Disarm)
      case Disarm => s.(note := n.(alarm := if n.alarm == Armed then Off else n.alarm), pc0 := Returning)
      case Returning => if n.alarm == Off then s.(pc0 := Check) else s
      case Check => s.(pc0 := if n.cell == TIMEOUT then GaveUp else Pc0.Show)
      case Show => s.(shown0 := n.cell, pc0 := Target)
      case Target => s.(note := n.(target := n.cell), pc0 := Kill)
      case Kill => s.(note := n.(kills := n.kills + [Shot(n.target, Members(s.pgid, n.target))]), pc0 := Unmap)
      case Unmap => s.(pc0 := Pc0.Asleep)
      case Asleep => s
      case GaveUp => s
  }

  predicate WriterCame(pc: Pc3) {
    pc.Opening? || pc.GetGroup? || pc.Write? || pc.Close? || pc.Install? || pc.Asleep?
  }

  predicate WriterClosed(pc: Pc3) { pc.Install? || pc.Asleep? }

  predicate ReaderCame(pc: Pc5) { !pc.Unborn? && !pc.Open? }

  function Step3(c: Config, s: State): State {
    match s.pc3
    case Unborn => s
    case Fork => s.(pc3 := OwnGroup, pc4 := Pc4.Install, pgid := Inherit(s.pgid, P3, P4))
    case OwnGroup => s.(pgid := s.pgid[P3 := c.pid3], pc3 := ChildGroup)
    case ChildGroup => s.(pgid := s.pgid[P4 := Pgid(s.pgid, P3)], pc3 := Access)
    case Access => s.(pc3 := if s.fifo then Creat else Mkfifo)
    case Mkfifo => if s.fifo then s.(pc3 := Pc3.Failed) else s.(fifo := true, pc3 := Creat)
    case Creat => s.(pc3 := Pc3.Opening)
    case Opening => if ReaderCame(s.pc5) then s.(pc3 := GetGroup) else s
    case GetGroup => s.(own := Pgid(s.pgid, P3), pc3 := Write)
    case Write => s.(pipe := Holding(s.own), pc3 := Close)
    case Close => s.(pc3 := Pc3.Install)
    case Install => s.(handlers := s.handlers + {P3}, pc3 := Pc3.Asleep)
    case Asleep => s
    case Failed => s
  }

  function Step5(c: Config, s: State): State {
    match s.pc5
    case Unborn => s
    case Open => if s.fifo then s.(pc5 := Pc5.Opening) else s
    case Opening => if WriterCame(s.pc3) then s.(pc5 := Read) else s
    case Read =>
      (match s.pipe
       case Holding(id) => s.(got := id, pipe := Empty, pc5 := Join)
       case Empty => if WriterClosed(s.pc3) then s.(pc5 := Pc5.Failed) else s)
    case Join =>
      if Members(s.pgid, s.got) != {} then s.(pgid := s.pgid[P5 := s.got], pc5 := Pc5.Show) else s.(pc5 := Pc5.Failed)
    case Show => s.(shown5 := s.note.cell, pc5 := Publish)
    case Publish => s.(note := Store(s.note, s.got), pc5 := Pc5.Install)
    case Install => s.(handlers := s.handlers + {P5}, pc5 := Pc5.Asleep)
    case Asleep => s
    case Failed => s
  }

  function StepAlarm(n: Note, handlers: set<Proc>, a: Act): Note {
    match a
    case Expire => if n.alarm == Armed then n.(alarm := Pending) else n
    case Deliver => if n.alarm == Pending then n.(alarm := if P0 in handlers then Handling else Fatal) else n
    case Let(_) => n
  }

  function Step(c: Config, s: State, a: Act): State {
    if a.Expire? || a.Deliver? then s.(note := StepAlarm(s.note, s.handlers, a))
    else match a.p
      case P0 => Step0(c, s)
      case P1 => if s.pc1.Fork? then s.(pc1 := Parent.Asleep, pc5 := Open, pgid := Inherit(s.pgid, P1, P5)) else s
      case P2 => if s.pc2.Fork? then s.(pc2 := Parent.Asleep, pc3 := Pc3.Fork, pgid := Inherit(s.pgid, P2, P3)) else s
      case P3 => Step3(c, s)
      case P4 => if s.pc4.Install? then s.(handlers := s.handlers + {P4}, pc4 := Pc4.Asleep) else s
      case P5 => Step5(c, s)
  }

  function Stepper(c: Config): (State, Act) -> State { (s, a) => Step(c, s, a) }

  function Run(c: Config, acts: seq<Act>): State { Fold(Stepper(c), Init(c), acts) }

  // ---------------------------------------------------------------------------
  // Erasing the notification leaves a run of the group formation
  // ---------------------------------------------------------------------------

  function Erase0(pc: Pc0): F.Pc {
    match pc case InitCell => F.Fork case Fork => F.Fork case ForkAgain => F.ForkAgain case _ => F.Asleep
  }

  function EraseParent(pc: Parent): F.Pc {
    match pc case Unborn => F.Unborn case Fork => F.Fork case Asleep => F.Asleep
  }

  function Erase3(pc: Pc3): F.Pc {
    match pc
    case Unborn => F.Unborn case Fork => F.Fork case OwnGroup => F.OwnGroup case ChildGroup => F.ChildGroup
    case Access => F.Access case Mkfifo => F.Mkfifo case Creat => F.Creat case Opening => F.Opening
    case GetGroup => F.GetGroup case Write => F.Write case Close => F.Close case Install => F.Asleep
    case Asleep => F.Asleep case Failed => F.Failed
  }

  function Erase5(pc: Pc5): F.Pc {
    match pc
    case Unborn => F.Unborn case Open => F.Open case Opening => F.Opening case Read => F.Read case Join => F.Join
    case Failed => F.Failed case Show => F.Asleep case Publish => F.Asleep case Install => F.Asleep
    case Asleep => F.Asleep
  }

  /** Steps that the smaller program does not have are seen as sleep there. */
  function Erase(s: State): F.State {
    F.State(Erase0(s.pc0), EraseParent(s.pc1), EraseParent(s.pc2), Erase3(s.pc3),
            if s.pc4.Unborn? then F.Unborn else F.Asleep, Erase5(s.pc5),
            s.pgid, s.fifo, s.pipe, s.own, s.got)
  }

  /** The choice that remains of `a`, if any. */
  function EraseAct(s: State, a: Act): seq<Proc> {
    if !a.Let? || (a.p == P0 && (s.note.alarm == Handling || s.note.alarm == Fatal || s.pc0 == InitCell)) then []
    else [a.p]
  }

  function EraseActs(c: Config, s: State, acts: seq<Act>): seq<Proc>
    decreases acts
  {
    if acts == [] then [] else EraseAct(s, acts[0]) + EraseActs(c, Step(c, s, acts[0]), acts[1..])
  }

  lemma Step0Erases(c: Config, s: State)
    requires s.note.alarm != Handling && s.note.alarm != Fatal && s.pc0 != InitCell
    ensures Erase(Step0(c, s)) == F.Step(c, Erase(s), P0)
  {
  }

  lemma Step3Erases(c: Config, s: State)
    ensures Erase(Step3(c, s)) == F.Step3(c, Erase(s))
  {
    assert ReaderCame(s.pc5) <==> F.ReaderCame(Erase(s));
    match s.pc3
    case Unborn => case Fork => case OwnGroup => case ChildGroup => case Access => case Mkfifo => case Creat =>
    case Opening => case GetGroup => case Write => case Close => case Install => case Asleep => case Failed =>
  }

  lemma Step5Erases(c: Config, s: State)
    ensures Erase(Step5(c, s)) == F.Step5(c, Erase(s))
  {
    assert WriterCame(s.pc3) <==> F.WriterCame(Erase(s));
    assert WriterClosed(s.pc3) <==> Erase3(s.pc3) == F.Asleep;
    match s.pc5
    case Unborn => case Open => case Opening => case Read => case Join =>
    case Show => case Publish => case Install => case Asleep => case Failed =>
  }

  /** A step of the signalling program is the same step of the smaller program,
      or is not seen there at all. */
  lemma StepErases(c: Config, s: State, a: Act)
    ensures Erase(Step(c, s, a)) == Fold(F.Stepper(c), Erase(s), EraseAct(s, a))
  {
    if EraseAct(s, a) != [] {
      assert EraseAct(s, a)[1..] == [];
      match a.p
      case P0 => Step0Erases(c, s);
      case P3 => Step3Erases(c, s);
      case P5 => Step5Erases(c, s);
      case _ =>
    }
  }

  lemma {:induction false} FoldErases(c: Config, s: State, acts: seq<Act>)
    ensures Erase(Fold(Stepper(c), s, acts)) == Fold(F.Stepper(c), Erase(s), EraseActs(c, s, acts))
    decreases acts
  {
    if acts != [] {
      var t := Step(c, s, acts[0]);
      StepErases(c, s, acts[0]);
      FoldErases(c, t, acts[1..]);
      FoldSplit(F.Stepper(c), Erase(s), EraseAct(s, acts[0]), EraseActs(c, t, acts[1..]));
    }
  }

  /** Refinement: every run of the signalling program, with the cell, the alarm
      and the handler erased, is a run of the group formation. */
  lemma RunErases(c: Config, acts: seq<Act>)
    ensures Erase(Run(c, acts)) == F.Run(c, EraseActs(c, Init(c), acts))
  {
    FoldErases(c, Init(c), acts);
  }

  // ---------------------------------------------------------------------------
  // The shared cell, the alarm and the decision of process 0
  // ---------------------------------------------------------------------------

  predicate Published(s: State) { s.pc5.Install? || s.pc5.Asleep? }

  /** Process 0 has armed the alarm. */
  predicate HasArmed(pc: Pc0) {
    !pc.InitCell? && !pc.Fork? && !pc.ForkAgain? && !pc.Install? && !pc.Arm?
  }

  /** Process 0 has installed its handler. */
  predicate HasInstalled(pc: Pc0) { pc.Arm? || HasArmed(pc) }

  /** Process 0 has left the spin loop. */
  predicate HasLeftSpin(pc: Pc0) { HasArmed(pc) && !pc.Spin? }

  /** Process 0 has compared the cell with the timeout value, and not given up. */
  predicate HasDecided(pc: Pc0) { pc.Show? || pc.Target? || pc.Kill? || pc.Unmap? || pc.Asleep? }

  /** `alarm(0)` has returned. */
  predicate HasDisarmed(pc: Pc0) { HasDecided(pc) || pc.Check? || pc.GaveUp? }

  /** The cell is set to -1 first; then at most one timeout and at most one id
      follow, in either order. */
  predicate CellLog(id: int, w: seq<int>) {
    || w == [WAITING] || w == [WAITING, TIMEOUT] || w == [WAITING, id]
    || w == [WAITING, TIMEOUT, id] || w == [WAITING, id, TIMEOUT]
  }

  ghost predicate CellInv(c: Config, s: State) {
    && (s.pc0.InitCell? ==> s.note.writes == [] && s.pc5.Unborn?)
    && (!s.pc0.InitCell? ==>
          CellLog(c.pid3, s.note.writes) && s.note.cell == s.note.writes[|s.note.writes| - 1])
    && (c.pid3 in s.note.writes <==> Published(s))
    && (s.pc5.Publish? || Published(s) ==> s.shown5 == WAITING || s.shown5 == TIMEOUT)
  }

  ghost predicate HandlersInv(s: State) {
    forall p :: p in s.handlers <==> HasHandler(s, p)
  }

  predicate HasHandler(s: State, p: Proc) {
    match p
    case P0 => HasInstalled(s.pc0) case P3 => s.pc3.Asleep? case P4 => s.pc4.Asleep? case P5 => s.pc5.Asleep?
    case _ => false
  }

  ghost predicate AlarmInv(s: State) {
    && s.note.alarm != Fatal
    && (s.note.alarm != Off ==> (s.pc0.Spin? || s.pc0.Disarm? || s.pc0.Returning?) && TIMEOUT !in s.note.writes)
    && (s.note.alarm == Armed ==> !s.pc0.Returning?)
    && (TIMEOUT in s.note.writes ==> HasArmed(s.pc0))
  }

  ghost predicate DecisionInv(c: Config, s: State) {
    && (HasLeftSpin(s.pc0) ==> s.note.cell != WAITING)
    && (HasDecided(s.pc0) ==> s.note.cell == c.pid3)
    && (HasDecided(s.pc0) && !s.pc0.Show? ==> s.shown0 == c.pid3)
    && (s.pc0.Kill? || s.pc0.Unmap? || s.pc0.Asleep? ==> s.note.target == c.pid3)
    && (s.pc0.GaveUp? ==> TIMEOUT in s.note.writes)
    && s.note.kills == if s.pc0.Unmap? || s.pc0.Asleep? then [Shot(c.pid3, {P3, P4, P5})] else []
  }

  ghost predicate Inv(c: Config, s: State) {
    F.Inv(c, Erase(s)) && HandlersInv(s) && CellInv(c, s) && AlarmInv(s) && DecisionInv(c, s)
  }

  lemma ErasedStepKeepsInv(c: Config, s: State, a: Act)
    requires F.Inv(c, Erase(s))
    ensures F.Inv(c, Erase(Step(c, s, a)))
  {
    StepErases(c, s, a);
    if EraseAct(s, a) != [] {
      assert EraseAct(s, a)[1..] == [];
      F.StepKeepsInv(c, Erase(s), a.p);
    }
  }

  lemma MainKeepsHandlers(c: Config, s: State, p: Proc)
    requires p in s.handlers <==> HasHandler(s, p)
    ensures p in Step0(c, s).handlers <==> HasHandler(Step0(c, s), p)
  {
    match s.pc0
    case InitCell => case Fork => case ForkAgain => case Install => case Arm => case Spin => case Disarm =>
    case Returning => case Check => case Show => case Target => case Kill => case Unmap => case Asleep =>
    case GaveUp =>
  }

  lemma Step3KeepsHandlers(c: Config, s: State, p: Proc)
    requires (p in s.handlers <==> HasHandler(s, p)) && (s.pc3.Fork? ==> s.pc4.Unborn?)
    ensures p in Step3(c, s).handlers <==> HasHandler(Step3(c, s), p)
  {
    match s.pc3
    case Unborn => case Fork => case OwnGroup => case ChildGroup => case Access => case Mkfifo => case Creat =>
    case Opening => case GetGroup => case Write => case Close => case Install => case Asleep => case Failed =>
  }

  lemma Step5KeepsHandlers(c: Config, s: State, p: Proc)
    requires p in s.handlers <==> HasHandler(s, p)
    ensures p in Step5(c, s).handlers <==> HasHandler(Step5(c, s), p)
  {
    match s.pc5
    case Unborn => case Open => case Opening => case Read => case Join =>
    case Show => case Publish => case Install => case Asleep => case Failed =>
  }

  /** A process has its handler from the moment it calls `signal`. */
  lemma StepKeepsHandlers(c: Config, s: State, a: Act)
    requires HandlersInv(s) && F.Tree(Erase(s))
    ensures HandlersInv(Step(c, s, a))
  {
    forall p ensures p in Step(c, s, a).handlers <==> HasHandler(Step(c, s, a), p) {
      assert p in s.handlers <==> HasHandler(s, p);
      if a.Let? {
        match a.p
        case P0 => MainKeepsHandlers(c, s, p);
        case P3 => Step3KeepsHandlers(c, s, p);
        case P5 => Step5KeepsHandlers(c, s, p);
        case _ =>
      }
    }
  }

  lemma HandlerKeepsNote(c: Config, s: State)
    requires Inv(c, s) && s.note.alarm == Handling
    ensures var t := Step0(c, s); CellInv(c, t) && AlarmInv(t) && DecisionInv(c, t)
  {
  }

  lemma MainKeepsCellAndAlarm(c: Config, s: State)
    requires Inv(c, s) && s.note.alarm != Handling
    ensures var t := Step0(c, s); CellInv(c, t) && AlarmInv(t)
  {
    match s.pc0
    case InitCell => case Fork => case ForkAgain => case Install => case Arm => case Spin => case Disarm =>
    case Returning => case Check => case Show => case Target => case Kill => case Unmap => case Asleep =>
    case GaveUp =>
  }

  lemma MainKeepsDecision(c: Config, s: State)
    requires Inv(c, s) && s.note.alarm != Handling
    ensures DecisionInv(c, Step0(c, s))
  {
    if s.pc0.Kill? { F.NewGroup(c, Erase(s)); }
    match s.pc0
    case InitCell => case Fork => case ForkAgain => case Install => case Arm => case Spin => case Disarm =>
    case Returning => case Check => case Show => case Target => case Kill => case Unmap => case Asleep =>
    case GaveUp =>
  }

  /** Process 5 touches the cell only when it publishes. */
  lemma Step5KeepsNote(c: Config, s: State)
    requires Inv(c, s)
    ensures var t := Step5(c, s);
      && t.pc0 == s.pc0 && t.shown0 == s.shown0 && (s.pc5.Show? || t.shown5 == s.shown5)
      && (t.shown5 == s.shown5 || t.shown5 == s.note.cell)
      && (!s.pc5.Publish? ==> t.note == s.note && Published(t) == Published(s) && t.pc5.Unborn? == s.pc5.Unborn?)
  {
    match s.pc5
    case Unborn => case Open => case Opening => case Read => case Join =>
    case Show => case Publish => case Install => case Asleep => case Failed =>
  }

  lemma PublishKeepsNote(c: Config, s: State)
    requires Inv(c, s) && s.pc5.Publish?
    ensures var t := Step5(c, s);
      && t.note == Store(s.note, c.pid3) && Published(t)
      && CellInv(c, t) && AlarmInv(t) && DecisionInv(c, t)
  {
  }

  lemma Step3KeepsNote(c: Config, s: State)
    requires Inv(c, s)
    ensures var t := Step3(c, s);
      t.note == s.note && t.pc0 == s.pc0 && t.pc5 == s.pc5 && t.shown0 == s.shown0 && t.shown5 == s.shown5
  {
    match s.pc3
    case Unborn => case Fork => case OwnGroup => case ChildGroup => case Access => case Mkfifo => case Creat =>
    case Opening => case GetGroup => case Write => case Close => case Install => case Asleep => case Failed =>
  }

  lemma AlarmKeepsNote(c: Config, s: State, a: Act)
    requires Inv(c, s) && !a.Let?
    ensures var t := Step(c, s, a); CellInv(c, t) && AlarmInv(t) && DecisionInv(c, t)
  {
    assert P0 in s.handlers <==> HasHandler(s, P0);
  }

  lemma StepKeepsNote(c: Config, s: State, a: Act)
    requires Inv(c, s)
    ensures var t := Step(c, s, a); CellInv(c, t) && AlarmInv(t) && DecisionInv(c, t)
  {
    if a.Let? {
      match a.p
      case P0 =>
        if s.note.alarm == Handling {
          HandlerKeepsNote(c, s);
        } else {
          MainKeepsCellAndAlarm(c, s);
          MainKeepsDecision(c, s);
        }
      case P3 => Step3KeepsNote(c, s);
      case P5 =>
        Step5KeepsNote(c, s);
        if s.pc5.Publish? { PublishKeepsNote(c, s); }
      case _ =>
    } else {
      AlarmKeepsNote(c, s, a);
    }
  }

  lemma StepKeepsInv(c: Config, s: State, a: Act)
    requires Inv(c, s)
    ensures Inv(c, Step(c, s, a))
  {
    ErasedStepKeepsInv(c, s, a);
    StepKeepsHandlers(c, s, a);
    StepKeepsNote(c, s, a);
  }

  lemma RunReaches(c: Config, acts: seq<Act>)
    requires c.Valid()
    ensures Inv(c, Run(c, acts))
  {
    F.RunReaches(c, []);
    forall s, a | Inv(c, s) ensures Inv(c, Stepper(c)(s, a)) {
      StepKeepsInv(c, s, a);
    }
    FoldKeeps(Stepper(c), s => Inv(c, s), Init(c), acts);
  }

  // ---------------------------------------------------------------------------
  // The results
  // ---------------------------------------------------------------------------

  /** Over all interleavings, alarm included: at most one signal is sent; its
      target is process 3's new group, and at that moment the group consists of
      processes 3, 4 and 5. */
  lemma KillHitsNewGroup(c: Config, acts: seq<Act>)
    requires c.Valid()
    ensures var kills := Run(c, acts).note.kills;
      |kills| <= 1 && forall shot :: shot in kills ==> shot == Shot(c.pid3, {P3, P4, P5})
  {
    RunReaches(c, acts);
  }

  /** What is ever stored in the cell, and that only process 5 stores the id. */
  lemma CellHistory(c: Config, acts: seq<Act>)
    requires c.Valid()
    ensures var s := Run(c, acts);
      && (s.note.writes == [] || CellLog(c.pid3, s.note.writes))
      && (c.pid3 in s.note.writes <==> Published(s))
  {
    RunReaches(c, acts);
  }

  /** Once process 5 has read an id, it is the new group's, and processes 3 and 4
      are in that group already: the result for the smaller program carries over. */
  lemma HandOffOrdersGroups(c: Config, acts: seq<Act>)
    requires c.Valid()
    requires F.Stage5(Erase5(Run(c, acts).pc5)) > 3
    ensures var s := Run(c, acts);
      s.got == c.pid3 && Pgid(s.pgid, P3) == Pgid(s.pgid, P4) == c.pid3
  {
    RunErases(c, acts);
    F.HandOffOrdersGroups(c, EraseActs(c, Init(c), acts));
  }

  ghost predicate Decided(c: Config, w: seq<int>, s: State) {
    Inv(c, s) && HasDecided(s.pc0) && s.note.writes == w
  }

  lemma StepKeepsDecided(c: Config, w: seq<int>, s: State, a: Act)
    requires Decided(c, w, s)
    ensures Decided(c, w, Step(c, s, a))
  {
    StepKeepsInv(c, s, a);
    if a.Let? {
      match a.p
      case P0 => match s.pc0 { case Show => case Target => case Kill => case Unmap => case Asleep => }
      case P3 => Step3KeepsNote(c, s);
      case P5 => Step5KeepsNote(c, s);
      case _ =>
    }
  }

  /** The decision is stable: once process 0 has compared the cell with the
      timeout value and not given up, the cell holds the new group's id and is
      never written again, whether or not the alarm fired before. */
  lemma DecisionIsStable(c: Config, acts: seq<Act>, more: seq<Act>)
    requires c.Valid() && HasDecided(Run(c, acts).pc0)
    ensures var s, t := Run(c, acts), Run(c, acts + more);
      s.note.cell == t.note.cell == c.pid3 && s.note.writes == t.note.writes
  {
    RunReaches(c, acts);
    var w := Run(c, acts).note.writes;
    forall s, a | Decided(c, w, s) ensures Decided(c, w, Stepper(c)(s, a)) {
      StepKeepsDecided(c, w, s, a);
    }
    FoldKeeps(Stepper(c), s => Decided(c, w, s), Run(c, acts), more);
    FoldSplit(Stepper(c), Init(c), acts, more);
  }

  ghost predicate Disarmed(c: Config, timedOut: bool, s: State) {
    Inv(c, s) && HasDisarmed(s.pc0) && (TIMEOUT in s.note.writes <==> timedOut)
  }

  lemma StepKeepsDisarmed(c: Config, timedOut: bool, s: State, a: Act)
    requires Disarmed(c, timedOut, s)
    ensures Disarmed(c, timedOut, Step(c, s, a))
  {
    StepKeepsInv(c, s, a);
    if a.Let? {
      match a.p
      case P0 =>
        match s.pc0 {
          case Check => case Show => case Target => case Kill => case Unmap => case Asleep => case GaveUp => }
      case P3 => Step3KeepsNote(c, s);
      case P5 =>
        Step5KeepsNote(c, s);
        if s.pc5.Publish? { PublishKeepsNote(c, s); }
      case _ =>
    }
  }

  /** No timeout value is stored after `alarm(0)` has returned. */
  lemma NoLateTimeout(c: Config, acts: seq<Act>, more: seq<Act>)
    requires c.Valid() && HasDisarmed(Run(c, acts).pc0)
    ensures TIMEOUT in Run(c, acts + more).note.writes <==> TIMEOUT in Run(c, acts).note.writes
  {
    RunReaches(c, acts);
    var timedOut := TIMEOUT in Run(c, acts).note.writes;
    forall s, a | Disarmed(c, timedOut, s) ensures Disarmed(c, timedOut, Stepper(c)(s, a)) {
      StepKeepsDisarmed(c, timedOut, s, a);
    }
    FoldKeeps(Stepper(c), s => Disarmed(c, timedOut, s), Run(c, acts), more);
    FoldSplit(Stepper(c), Init(c), acts, more);
  }

  /** The handler is in place before the alarm is armed: a delivered signal always
      runs it, and never ends process 0. */
  lemma HandlerPrecedesAlarm(c: Config, acts: seq<Act>)
    requires c.Valid()
    ensures var s := Run(c, acts);
      && s.note.alarm != Fatal && (s.note.alarm != Off ==> P0 in s.handlers)
      && (s.note.alarm == Pending ==> Run(c, acts + [Deliver]).note.alarm == Handling)
  {
    RunReaches(c, acts);
    assert P0 in Run(c, acts).handlers <==> HasHandler(Run(c, acts), P0);
    FoldSnoc(Stepper(c), Init(c), acts, Deliver);
  }

  /** What processes 5 and 0 print of the cell: process 5 finds -1, or -2 if the
      handler came first; process 0 finds the new group's id. */
  lemma ShownValues(c: Config, acts: seq<Act>)
    requires c.Valid()
    ensures var s := Run(c, acts);
      && (s.pc5.Publish? || Published(s) ==> s.shown5 == WAITING || (s.shown5 == TIMEOUT && TIMEOUT in s.note.writes))
      && (s.note.kills != [] ==> s.shown0 == c.pid3)
  {
    RunReaches(c, []);
    var inv := (s: State) => Inv(c, s) && (s.shown5 == TIMEOUT ==> TIMEOUT in s.note.writes);
    forall s, a | inv(s) ensures inv(Stepper(c)(s, a)) {
      StepKeepsInv(c, s, a);
      NoteGrows(c, s, a);
    }
    FoldKeeps(Stepper(c), inv, Init(c), acts);
  }

  /** The history of the cell only grows; process 5 prints the cell's value. */
  lemma NoteGrows(c: Config, s: State, a: Act)
    requires Inv(c, s)
    ensures var t := Step(c, s, a);
      && s.note.writes <= t.note.writes
      && (t.shown5 == s.shown5 || (t.shown5 == s.note.cell && !s.pc0.InitCell?))
  {
    if a.Let? {
      match a.p
      case P0 =>
        match s.pc0 {
          case InitCell => case Fork => case ForkAgain => case Install => case Arm => case Spin => case Disarm =>
          case Returning => case Check => case Show => case Target => case Kill => case Unmap => case Asleep =>
          case GaveUp => }
      case P3 => Step3KeepsNote(c, s);
      case P5 =>
        Step5KeepsNote(c, s);
        if s.pc5.Publish? { PublishKeepsNote(c, s); }
      case _ =>
    }
  }

  /** `mkfifo` is called only while there is no FIFO, here too: the result for the
      smaller program carries over. */
  lemma MkfifoFindsNoFifo(c: Config, acts: seq<Act>)
    requires c.Valid()
    ensures var s := Run(c, acts);
      (s.pc3.Mkfifo? ==> !s.fifo) && (c.fifoThere ==> !s.pc3.Mkfifo?) && !s.pc3.Failed? && !s.pc5.Failed?
  {
    RunErases(c, acts);
    F.MkfifoFindsNoFifo(c, EraseActs(c, Init(c), acts));
    F.OpensMeet(c, EraseActs(c, Init(c), acts));
  }

  // ---------------------------------------------------------------------------
  // An expired alarm is not lost
  // ---------------------------------------------------------------------------

  predicate Expired(alarm: Alarm) { alarm == Pending || alarm == Handling }

  ghost predicate Fired(c: Config, s: State) {
    Inv(c, s) && (Expired(s.note.alarm) || TIMEOUT in s.note.writes)
  }

  lemma StepKeepsFired(c: Config, s: State, a: Act)
    requires Fired(c, s)
    ensures Fired(c, Step(c, s, a))
  {
    StepKeepsInv(c, s, a);
    NoteGrows(c, s, a);
    if TIMEOUT !in s.note.writes { ExpiredStep(c, s, a); }
  }

  /** The signal stays pending until it is handled, which stores the timeout. */
  lemma ExpiredStep(c: Config, s: State, a: Act)
    requires Inv(c, s) && Expired(s.note.alarm)
    ensures var t := Step(c, s, a); Expired(t.note.alarm) || t.note.writes == s.note.writes + [TIMEOUT]
  {
    assert P0 in s.handlers <==> HasHandler(s, P0);
    if a.Let? {
      match a.p
      case P0 => match s.pc0 { case Spin => case Disarm => case Returning => }
      case P3 => Step3KeepsNote(c, s);
      case P5 =>
        Step5KeepsNote(c, s);
        if s.pc5.Publish? { PublishKeepsNote(c, s); }
      case _ =>
    }
  }

  /** Once the alarm has expired, wherever process 0 is (also while it calls
      `alarm(0)`), the timeout is stored before the program comes to rest. */
  lemma ExpiredAlarmIsNotLost(c: Config, acts: seq<Act>, more: seq<Act>)
    requires c.Valid() && Expired(Run(c, acts).note.alarm) && Quiescent(c, Run(c, acts + more))
    ensures TIMEOUT in Run(c, acts + more).note.writes
  {
    RunReaches(c, acts);
    forall s, a | Fired(c, s) ensures Fired(c, Stepper(c)(s, a)) {
      StepKeepsFired(c, s, a);
    }
    FoldKeeps(Stepper(c), s => Fired(c, s), Run(c, acts), more);
    FoldSplit(Stepper(c), Init(c), acts, more);
    Settled(c, Run(c, acts + more));
  }

  /** The alarm has expired after publication, and its handler has or has not run. */
  ghost predicate Overtaken(c: Config, s: State) {
    && Inv(c, s) && !HasDecided(s.pc0)
    && (|| (Expired(s.note.alarm) && s.note.writes == [WAITING, c.pid3])
        || (s.note.alarm == Off && s.note.writes == [WAITING, c.pid3, TIMEOUT]))
  }

  lemma StepKeepsOvertaken(c: Config, s: State, a: Act)
    requires Overtaken(c, s)
    ensures Overtaken(c, Step(c, s, a))
  {
    StepKeepsInv(c, s, a);
    if Expired(s.note.alarm) { ExpiredStep(c, s, a); }
    if a.Let? {
      match a.p
      case P0 =>
        match s.pc0 { case Spin => case Disarm => case Returning => case Check => case GaveUp => case _ => }
      case P3 => Step3KeepsNote(c, s);
      case P5 => Step5KeepsNote(c, s);
      case _ =>
    }
  }

  /** If the alarm expires after publication, even during `alarm(0)`, the group is
      not signalled, whatever the schedule does from there on. */
  lemma ExpiryAfterPublicationAbandons(c: Config, acts: seq<Act>, more: seq<Act>)
    requires c.Valid() && Expired(Run(c, acts).note.alarm) && Published(Run(c, acts))
    requires Quiescent(c, Run(c, acts + more))
    ensures var s := Run(c, acts + more);
      s.pc0.GaveUp? && s.note.kills == [] && s.note.writes == [WAITING, c.pid3, TIMEOUT]
  {
    RunReaches(c, acts);
    forall s, a | Overtaken(c, s) ensures Overtaken(c, Stepper(c)(s, a)) {
      StepKeepsOvertaken(c, s, a);
    }
    FoldKeeps(Stepper(c), s => Overtaken(c, s), Run(c, acts), more);
    FoldSplit(Stepper(c), Init(c), acts, more);
    Settled(c, Run(c, acts + more));
  }

  // ---------------------------------------------------------------------------
  // Progress
  // ---------------------------------------------------------------------------

  /** Nobody can move, even if the alarm never expires. */
  predicate Quiescent(c: Config, s: State) {
    (forall p: Proc :: Step(c, s, Let(p)) == s) && Step(c, s, Deliver) == s
  }

  /** All have come to rest: the group is complete, and process 0 has signalled
      it, or has given up after its alarm fired. */
  lemma Settled(c: Config, s: State)
    requires Inv(c, s) && Quiescent(c, s)
    ensures Members(s.pgid, c.pid3) == {P3, P4, P5} && Published(s)
    ensures s.handlers == {P0, P3, P4, P5}
    ensures || (s.pc0.Asleep? && s.note.kills == [Shot(c.pid3, {P3, P4, P5})])
            || (s.pc0.GaveUp? && s.note.kills == [] && TIMEOUT in s.note.writes)
  {
    forall p: Proc ensures p == P0 || F.Step(c, Erase(s), p) == Erase(s) {
      StepErases(c, s, Let(p));
      assert Step(c, s, Let(p)) == s;
    }
    RestingFormation(c, s);
    F.Settled(c, Erase(s));
    assert Step(c, s, Let(P5)) == s;
    RestingMain(c, s);
    RestingHandlers(c, s);
  }

  /** Process 0 cannot be stuck before it has forked both children. */
  lemma RestingFormation(c: Config, s: State)
    requires Inv(c, s) && Quiescent(c, s)
    requires forall p: Proc :: p == P0 || F.Step(c, Erase(s), p) == Erase(s)
    ensures F.Quiescent(c, Erase(s))
  {
    assert Step(c, s, Let(P0)) == s && Step(c, s, Deliver) == s;
    match s.pc0
    case InitCell => case Fork => case ForkAgain => case Install => case Arm => case Spin => case Disarm =>
    case Returning => case Check => case Show => case Target => case Kill => case Unmap => case Asleep =>
    case GaveUp =>
  }

  lemma RestingMain(c: Config, s: State)
    requires Inv(c, s) && Quiescent(c, s) && F.AllAsleep(Erase(s))
    ensures Published(s) && (s.pc0.Asleep? || s.pc0.GaveUp?)
  {
    assert Step(c, s, Let(P0)) == s && Step(c, s, Let(P5)) == s && Step(c, s, Deliver) == s;
    match s.pc5 { case Show => case Publish => case Install => case Asleep => }
    match s.pc0
    case InitCell => case Fork => case ForkAgain => case Install => case Arm => case Spin => case Disarm =>
    case Returning => case Check => case Show => case Target => case Kill => case Unmap => case Asleep =>
    case GaveUp =>
  }

  lemma RestingHandlers(c: Config, s: State)
    requires Inv(c, s) && Quiescent(c, s) && F.AllAsleep(Erase(s)) && (s.pc0.Asleep? || s.pc0.GaveUp?)
    ensures s.handlers == {P0, P3, P4, P5}
  {
    assert Step(c, s, Let(P3)) == s && Step(c, s, Let(P4)) == s && Step(c, s, Let(P5)) == s;
    assert s.pc3.Asleep? && s.pc4.Asleep? && Published(s);
    forall p ensures p in s.handlers <==> p in {P0, P3, P4, P5} {
      assert p in s.handlers <==> HasHandler(s, p);
    }
  }

  lemma GroupIsSignalledOrTimeout(c: Config, acts: seq<Act>)
    requires c.Valid() && Quiescent(c, Run(c, acts))
    ensures var s := Run(c, acts);
      && Members(s.pgid, c.pid3) == {P3, P4, P5} && Published(s) && s.handlers == {P0, P3, P4, P5}
      && (s.note.kills == [Shot(c.pid3, {P3, P4, P5})] || (s.pc0.GaveUp? && TIMEOUT in s.note.writes))
  {
    RunReaches(c, acts);
    Settled(c, Run(c, acts));
  }

  ghost predicate Untimed(c: Config, s: State) {
    Inv(c, s) && (s.note.alarm == Off || s.note.alarm == Armed) && TIMEOUT !in s.note.writes
  }

  lemma StepKeepsUntimed(c: Config, s: State, a: Act)
    requires Untimed(c, s) && a != Expire
    ensures Untimed(c, Step(c, s, a))
  {
    StepKeepsInv(c, s, a);
    if a.Let? {
      match a.p
      case P0 =>
        match s.pc0 {
          case InitCell => case Fork => case ForkAgain => case Install => case Arm => case Spin => case Disarm =>
          case Returning => case Check => case Show => case Target => case Kill => case Unmap => case Asleep =>
          case GaveUp => }
      case P3 => Step3KeepsNote(c, s);
      case P5 =>
        Step5KeepsNote(c, s);
        if s.pc5.Publish? { PublishKeepsNote(c, s); }
      case _ =>
    }
  }

  /** If the alarm does not expire first, the group is always signalled. */
  lemma SignalledWithoutTimeout(c: Config, acts: seq<Act>)
    requires c.Valid() && Expire !in acts && Quiescent(c, Run(c, acts))
    ensures Run(c, acts).note.kills == [Shot(c.pid3, {P3, P4, P5})]
  {
    RunReaches(c, []);
    forall s, a | Untimed(c, s) && a != Expire ensures Untimed(c, Stepper(c)(s, a)) {
      StepKeepsUntimed(c, s, a);
    }
    FoldKeepsFor(Stepper(c), s => Untimed(c, s), a => a != Expire, Init(c), acts);
    Settled(c, Run(c, acts));
  }

  function Rank0(pc: Pc0): nat {
    match pc
    case InitCell => 13 case Fork => 12 case ForkAgain => 11 case Install => 10 case Arm => 9 case Spin => 8
    case Disarm => 7 case Returning => 6 case Check => 5 case Show => 4 case Target => 3 case Kill => 2
    case Unmap => 1 case Asleep => 0 case GaveUp => 0
  }

  function Rank3(pc: Pc3): nat {
    match pc
    case Unborn => 12 case Fork => 11 case OwnGroup => 10 case ChildGroup => 9 case Access => 8 case Mkfifo => 7
    case Creat => 6 case Opening => 5 case GetGroup => 4 case Write => 3 case Close => 2 case Install => 1
    case Asleep => 0 case Failed => 0
  }

  function Rank5(pc: Pc5): nat {
    match pc
    case Unborn => 9 case Open => 8 case Opening => 7 case Read => 6 case Join => 5 case Show => 4
    case Publish => 3 case Install => 2 case Asleep => 1 case Failed => 0
  }

  function RankParent(pc: Parent): nat { match pc case Unborn => 2 case Fork => 1 case Asleep => 0 }

  function Rank4(pc: Pc4): nat { match pc case Unborn => 2 case Install => 1 case Asleep => 0 }

  function RankAlarm(alarm: Alarm): nat {
    match alarm case Off => 0 case Armed => 3 case Pending => 2 case Handling => 1 case Fatal => 0
  }

  /** Arming the alarm is paid for by the weight of process 0's steps. */
  function Rank(s: State): nat {
    4 * Rank0(s.pc0) + RankAlarm(s.note.alarm) + RankParent(s.pc1) + RankParent(s.pc2)
    + Rank3(s.pc3) + Rank4(s.pc4) + Rank5(s.pc5)
  }

  lemma Step0LowersRank(c: Config, s: State)
    requires Step0(c, s) != s
    requires (s.pc0.Fork? ==> s.pc1.Unborn?) && (s.pc0.ForkAgain? ==> s.pc2.Unborn?)
    requires s.pc0.Arm? ==> s.note.alarm == Off
    ensures Rank(Step0(c, s)) < Rank(s)
  {
    match s.pc0
    case InitCell => case Fork => case ForkAgain => case Install => case Arm => case Spin => case Disarm =>
    case Returning => case Check => case Show => case Target => case Kill => case Unmap => case Asleep =>
    case GaveUp =>
  }

  lemma Step3LowersRank(c: Config, s: State)
    requires Step3(c, s) != s && (s.pc3.Fork? ==> s.pc4.Unborn?)
    ensures Rank(Step3(c, s)) < Rank(s)
  {
    match s.pc3
    case Unborn => case Fork => case OwnGroup => case ChildGroup => case Access => case Mkfifo => case Creat =>
    case Opening => case GetGroup => case Write => case Close => case Install => case Asleep => case Failed =>
  }

  lemma Step5LowersRank(c: Config, s: State)
    requires Step5(c, s) != s
    ensures Rank(Step5(c, s)) < Rank(s)
  {
    match s.pc5
    case Unborn => case Open => case Opening => case Read => case Join =>
    case Show => case Publish => case Install => case Asleep => case Failed =>
  }

  lemma StepLowersRank(c: Config, s: State, a: Act)
    requires Inv(c, s) && Step(c, s, a) != s
    ensures Rank(Step(c, s, a)) < Rank(s)
  {
    if a.Let? {
      match a.p
      case P0 => Step0LowersRank(c, s);
      case P3 => Step3LowersRank(c, s);
      case P5 => Step5LowersRank(c, s);
      case _ =>
    }
  }

  /** Busy waiting apart, no scheduling makes more than 79 moves. */
  lemma ProgressIsBounded(c: Config, acts: seq<Act>)
    requires c.Valid()
    ensures Moves(Stepper(c), Init(c), acts) <= 79
  {
    RunReaches(c, []);
    forall s, a | Inv(c, s) ensures Inv(c, Stepper(c)(s, a)) {
      StepKeepsInv(c, s, a);
    }
    forall s, a | Inv(c, s) && Stepper(c)(s, a) != s ensures Rank(Stepper(c)(s, a)) < Rank(s) {
      StepLowersRank(c, s, a);
    }
    MovesBounded(Stepper(c), s => Inv(c, s), s => Rank(s), a => true, Init(c), acts);
  }
}
