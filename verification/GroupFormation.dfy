/** Six processes form a process group.  0 forks 1 and 2, 1 forks 5, 2 forks 3,
    3 forks 4; process 3 founds a group, moves its child 4 into it and hands the
    group's id through a FIFO to process 5, which joins.

    A schedule is a sequence of processes; choosing one that does not exist, is
    blocked, finds no FIFO to open yet or sleeps changes nothing. */
module GroupFormation {
  import opened Schedules
  import opened ProcessGroups

  datatype Pc =
    | Unborn | Fork | ForkAgain | OwnGroup | ChildGroup | Access | Mkfifo | Creat | Opening
    | GetGroup | Write | Close | Open | Read | Join | Asleep | Failed

  datatype State = State(
    pc0: Pc, pc1: Pc, pc2: Pc, pc3: Pc, pc4: Pc, pc5: Pc,
    pgid: map<Proc, int>,
    fifo: bool,
    pipe: Pipe,
    own: int,
    got: int)

  function Init(c: Config): State {
    State(Fork, Unborn, Unborn, Unborn, Unborn, Unborn, map[P0 := c.group0], c.fifoThere, Empty, 0, 0)
  }

  /** Process 3 has come to the point of opening the FIFO for writing. */
  predicate WriterCame(s: State) { s.pc3 in {Opening, GetGroup, Write, Close, Asleep} }

  /** Process 5 has come to the point of opening the FIFO for reading. */
  predicate ReaderCame(s: State) { s.pc5 in {Opening, Read, Join, Asleep, Failed} }

  /** Making a FIFO fails if the name exists already. */
  function Step3(c: Config, s: State): State {
    match s.pc3
    case Fork => s.(pc3 := OwnGroup, pc4 := Asleep, pgid := Inherit(s.pgid, P3, P4))
    case OwnGroup => s.(pgid := s.pgid[P3 := c.pid3], pc3 := ChildGroup)
    case ChildGroup => s.(pgid := s.pgid[P4 := Pgid(s.pgid, P3)], pc3 := Access)
    case Access => s.(pc3 := if s.fifo then Creat else Mkfifo)
    case Mkfifo => if s.fifo then s.(pc3 := Failed) else s.(fifo := true, pc3 := Creat)
    case Creat => s.(pc3 := Opening)
    case Opening => if ReaderCame(s) then s.(pc3 := GetGroup) else s
    case GetGroup => s.(own := Pgid(s.pgid, P3), pc3 := Write)
    case Write => s.(pipe := Holding(s.own), pc3 := Close)
    case Close => s.(pc3 := Asleep)
    case _ => s
  }

  /** A read of an empty FIFO waits for the writer and meets the end of file once
      the writer has closed; joining needs a group that exists. */
  function Step5(c: Config, s: State): State {
    match s.pc5
    case Open => if s.fifo then s.(pc5 := Opening) else s
    case Opening => if WriterCame(s) then s.(pc5 := Read) else s
    case Read =>
      (match s.pipe
       case Holding(id) => s.(got := id, pipe := Empty, pc5 := Join)
       case Empty => if s.pc3 == Asleep then s.(pc5 := Failed) else s)
    case Join =>
      if Members(s.pgid, s.got) != {} then s.(pgid := s.pgid[P5 := s.got], pc5 := Asleep) else s.(pc5 := Failed)
    case _ => s
  }

  function Step(c: Config, s: State, p: Proc): State {
    match p
    case P0 =>
      if s.pc0 == Fork then s.(pc0 := ForkAgain, pc1 := Fork, pgid := Inherit(s.pgid, P0, P1))
      else if s.pc0 == ForkAgain then s.(pc0 := Asleep, pc2 := Fork, pgid := Inherit(s.pgid, P0, P2))
      else s
    case P1 => if s.pc1 == Fork then s.(pc1 := Asleep, pc5 := Open, pgid := Inherit(s.pgid, P1, P5)) else s
    case P2 => if s.pc2 == Fork then s.(pc2 := Asleep, pc3 := Fork, pgid := Inherit(s.pgid, P2, P3)) else s
    case P3 => Step3(c, s)
    case P4 => s
    case P5 => Step5(c, s)
  }

  function Stepper(c: Config): (State, Proc) -> State { (s, p) => Step(c, s, p) }

  function Run(c: Config, acts: seq<Proc>): State { Fold(Stepper(c), Init(c), acts) }

  // ---------------------------------------------------------------------------
  // What every step keeps
  // ---------------------------------------------------------------------------

  function Stage3(pc: Pc): nat {
    match pc
    case Fork => 1 case OwnGroup => 2 case ChildGroup => 3 case Access => 4 case Mkfifo => 5 case Creat => 6
    case Opening => 7 case GetGroup => 8 case Write => 9 case Close => 10 case Asleep => 11 case _ => 0
  }

  function Stage5(pc: Pc): nat {
    match pc
    case Open => 1 case Opening => 2 case Read => 3 case Join => 4 case Asleep => 5 case Failed => 6 case _ => 0
  }

  function Stage(pc: Pc): nat {
    match pc case Fork => 1 case ForkAgain => 2 case Asleep => 3 case _ => 0
  }

  /** Who exists, in terms of how far the parents have come. */
  ghost predicate Tree(s: State) {
    && s.pc0 in {Fork, ForkAgain, Asleep} && s.pc1 in {Unborn, Fork, Asleep} && s.pc2 in {Unborn, Fork, Asleep}
    && s.pc4 in {Unborn, Asleep} && (s.pc3 == Unborn || Stage3(s.pc3) > 0) && (s.pc5 == Unborn || Stage5(s.pc5) > 0)
    && (s.pc1 == Unborn <==> s.pc0 == Fork) && (s.pc2 == Unborn <==> s.pc0 != Asleep)
    && (s.pc5 == Unborn <==> s.pc1 != Asleep) && (s.pc3 == Unborn <==> s.pc2 != Asleep)
    && (s.pc4 == Unborn <==> s.pc3 in {Unborn, Fork})
  }

  /** The group of each process, in terms of how far processes 3 and 5 have come. */
  ghost predicate Groups(c: Config, s: State) {
    forall p :: GroupOf(c, s, p)
  }

  ghost predicate GroupOf(c: Config, s: State, p: Proc) {
    && (p in s.pgid <==> Exists(s, p))
    && (p in s.pgid ==> s.pgid[p] == if InNewGroup(s, p) then c.pid3 else c.group0)
  }

  predicate Exists(s: State, p: Proc) {
    match p
    case P0 => true case P1 => s.pc1 != Unborn case P2 => s.pc2 != Unborn
    case P3 => s.pc3 != Unborn case P4 => s.pc4 != Unborn case P5 => s.pc5 != Unborn
  }

  predicate InNewGroup(s: State, p: Proc) {
    match p
    case P3 => Stage3(s.pc3) > 2
    case P4 => Stage3(s.pc3) > 3
    case P5 => s.pc5 == Asleep
    case _ => false
  }

  /** The hand-off through the FIFO. */
  ghost predicate HandOff(c: Config, s: State) {
    && s.pc5 != Failed && (s.pc3 == Mkfifo ==> !s.fifo) && (c.fifoThere ==> s.fifo)
    && (Stage3(s.pc3) > 5 || Stage5(s.pc5) > 1 ==> s.fifo)
    && (Stage3(s.pc3) > 7 ==> Stage5(s.pc5) > 1) && (Stage5(s.pc5) > 2 ==> Stage3(s.pc3) > 6)
    && (Stage3(s.pc3) > 8 ==> s.own == c.pid3)
    && s.pipe == (if Stage3(s.pc3) > 9 && Stage5(s.pc5) <= 3 then Holding(c.pid3) else Empty)
    && (Stage5(s.pc5) > 3 ==> Stage3(s.pc3) > 9 && s.got == c.pid3)
  }

  ghost predicate Inv(c: Config, s: State) {
    c.Valid() && Tree(s) && Groups(c, s) && HandOff(c, s)
  }

  lemma StepKeepsTree(c: Config, s: State, p: Proc)
    requires Tree(s) && (s.pc3 == Mkfifo ==> !s.fifo)
    ensures Tree(Step(c, s, p))
  {
    match p case P0 => case P1 => case P2 => case P3 => case P4 => case P5 =>
  }

  lemma Step3KeepsGroups(c: Config, s: State, q: Proc)
    requires Inv(c, s)
    ensures GroupOf(c, Step3(c, s), q)
  {
    assert GroupOf(c, s, q) && GroupOf(c, s, P3) && GroupOf(c, s, P4);
    match s.pc3
    case Fork => case OwnGroup => case ChildGroup => case Access => case Mkfifo => case Creat =>
    case Opening => case GetGroup => case Write => case Close => case _ =>
  }

  lemma Step5KeepsGroups(c: Config, s: State, q: Proc)
    requires Inv(c, s)
    ensures GroupOf(c, Step5(c, s), q)
  {
    assert GroupOf(c, s, q);
    JoinsNewGroup(c, s);
  }

  lemma ForksKeepGroups(c: Config, s: State, p: Proc, q: Proc)
    requires Inv(c, s) && p in {P0, P1, P2, P4}
    ensures GroupOf(c, Step(c, s, p), q)
  {
    assert GroupOf(c, s, q) && GroupOf(c, s, p);
  }

  lemma StepKeepsGroups(c: Config, s: State, p: Proc)
    requires Inv(c, s)
    ensures Groups(c, Step(c, s, p))
  {
    forall q ensures GroupOf(c, Step(c, s, p), q) {
      match p
      case P3 => Step3KeepsGroups(c, s, q);
      case P5 => Step5KeepsGroups(c, s, q);
      case _ => ForksKeepGroups(c, s, p, q);
    }
  }

  lemma JoinsNewGroup(c: Config, s: State)
    requires Inv(c, s)
    ensures s.pc5 == Join ==> s.got == c.pid3 && Members(s.pgid, s.got) != {}
  {
    if s.pc5 == Join {
      assert GroupOf(c, s, P3);
      assert P3 in Members(s.pgid, s.got);
    }
  }

  lemma StepKeepsHandOff(c: Config, s: State, p: Proc)
    requires Inv(c, s)
    ensures HandOff(c, Step(c, s, p))
  {
    JoinsNewGroup(c, s);
    assert GroupOf(c, s, P3);
  }

  lemma StepKeepsInv(c: Config, s: State, p: Proc)
    requires Inv(c, s)
    ensures Inv(c, Step(c, s, p))
  {
    StepKeepsTree(c, s, p);
    StepKeepsGroups(c, s, p);
    StepKeepsHandOff(c, s, p);
  }

  lemma RunReaches(c: Config, acts: seq<Proc>)
    requires c.Valid()
    ensures Inv(c, Run(c, acts))
  {
    forall s, p | Inv(c, s) ensures Inv(c, Stepper(c)(s, p)) {
      StepKeepsInv(c, s, p);
    }
    FoldKeeps(Stepper(c), s => Inv(c, s), Init(c), acts);
  }

  // ---------------------------------------------------------------------------
  // The results
  // ---------------------------------------------------------------------------

  /** Once process 5 has read an id, it is the new group's, and processes 3 and 4
      are both in that group already. */
  lemma HandOffOrdersGroups(c: Config, acts: seq<Proc>)
    requires c.Valid() && Stage5(Run(c, acts).pc5) > 3
    ensures var s := Run(c, acts);
      s.got == c.pid3 && Pgid(s.pgid, P3) == Pgid(s.pgid, P4) == c.pid3
  {
    RunReaches(c, acts);
    assert GroupOf(c, Run(c, acts), P3) && GroupOf(c, Run(c, acts), P4);
  }

  /** Before it joins, nobody but 3 and 4 is in the new group; afterwards 5 is. */
  lemma NewGroup(c: Config, s: State)
    requires Inv(c, s)
    ensures Members(s.pgid, c.pid3) <= {P3, P4, P5}
    ensures s.pc5 == Asleep ==> Members(s.pgid, c.pid3) == {P3, P4, P5}
  {
    forall p | p in Members(s.pgid, c.pid3) ensures p in {P3, P4, P5} {
      assert GroupOf(c, s, p);
    }
    assert GroupOf(c, s, P3) && GroupOf(c, s, P4) && GroupOf(c, s, P5);
    if s.pc5 == Asleep {
      assert P3 in Members(s.pgid, c.pid3) && P4 in Members(s.pgid, c.pid3) && P5 in Members(s.pgid, c.pid3);
    }
  }

  /** Processes 0, 1 and 2 stay where they started, and 3, 4 and 5 enter the new
      group in this order. */
  lemma EntryOrder(c: Config, acts: seq<Proc>, p: Proc)
    requires c.Valid() && p in Run(c, acts).pgid
    ensures var members := Members(Run(c, acts).pgid, c.pid3);
      && (p in {P0, P1, P2} ==> Run(c, acts).pgid[p] == c.group0)
      && (P4 in members ==> P3 in members) && (P5 in members ==> P4 in members)
  {
    RunReaches(c, acts);
    var s := Run(c, acts);
    assert GroupOf(c, s, p) && GroupOf(c, s, P3) && GroupOf(c, s, P4) && GroupOf(c, s, P5);
  }

  /** Who has been forked when: the tree of the six processes. */
  lemma BirthOrder(c: Config, acts: seq<Proc>)
    requires c.Valid()
    ensures var born := Run(c, acts).pgid.Keys;
      && (P2 in born ==> P1 in born) && (P5 in born ==> P1 in born)
      && (P3 in born ==> P2 in born) && (P4 in born ==> P3 in born)
  {
    RunReaches(c, acts);
    forall p ensures p in Run(c, acts).pgid <==> Exists(Run(c, acts), p) {
      assert GroupOf(c, Run(c, acts), p);
    }
  }

  /** `mkfifo` is called only while there is no FIFO, so it can succeed and process
      3 always reaches the hand-off; a FIFO left behind is never made again. */
  lemma MkfifoFindsNoFifo(c: Config, acts: seq<Proc>)
    requires c.Valid()
    ensures var s := Run(c, acts);
      && (s.pc3 == Mkfifo ==> !s.fifo) && (c.fifoThere ==> s.pc3 != Mkfifo) && s.pc3 != Failed
      && (s.pc3 in {Creat, Opening, GetGroup, Write, Close, Asleep} ==> s.fifo)
  {
    RunReaches(c, acts);
  }

  /** Both processes get past their opens only when the FIFO is there and the other
      process has come to its own open. */
  lemma OpensMeet(c: Config, acts: seq<Proc>)
    requires c.Valid()
    ensures var s := Run(c, acts);
      && (s.pc3 in {GetGroup, Write, Close, Asleep} ==> s.fifo && ReaderCame(s))
      && (s.pc5 in {Read, Join, Asleep} ==> s.fifo && WriterCame(s))
      && s.pc5 != Failed && (s.pc5 == Opening ==> s.fifo)
  {
    RunReaches(c, acts);
  }

  predicate Quiescent(c: Config, s: State) { forall p: Proc :: Step(c, s, p) == s }

  predicate AllAsleep(s: State) {
    s.pc0 == s.pc1 == s.pc2 == s.pc3 == s.pc4 == s.pc5 == Asleep
  }

  /** Neither open, nor the read, blocks for ever: some process can move until
      all sleep, and then the group is complete. */
  lemma Settled(c: Config, s: State)
    requires Inv(c, s) && Quiescent(c, s)
    ensures AllAsleep(s) && Members(s.pgid, c.pid3) == {P3, P4, P5}
    ensures s.fifo && s.pipe == Empty && s.own == s.got == c.pid3
  {
    assert Step(c, s, P0) == s && Step(c, s, P1) == s && Step(c, s, P2) == s;
    assert Step(c, s, P3) == s && Step(c, s, P5) == s;
    JoinsNewGroup(c, s);
    NewGroup(c, s);
  }

  lemma GroupForms(c: Config, acts: seq<Proc>)
    requires c.Valid() && Quiescent(c, Run(c, acts))
    ensures var s := Run(c, acts);
      && AllAsleep(s) && Members(s.pgid, c.pid3) == {P3, P4, P5}
      && s.fifo && s.pipe == Empty && s.own == s.got == c.pid3
  {
    RunReaches(c, acts);
    Settled(c, Run(c, acts));
  }

  function Rank(s: State): int {
    30 - Stage(s.pc0) - Stage(s.pc1) - Stage(s.pc2) - Stage3(s.pc3) - Stage(s.pc4) - Stage5(s.pc5)
  }

  lemma RankIsNat(c: Config, s: State)
    requires Inv(c, s)
    ensures Rank(s) >= 0
  {
  }

  lemma Step3LowersRank(c: Config, s: State)
    requires Tree(s) && Step3(c, s) != s && (s.pc3 == Mkfifo ==> !s.fifo)
    ensures Rank(Step3(c, s)) < Rank(s)
  {
  }

  lemma StepLowersRank(c: Config, s: State, p: Proc)
    requires Inv(c, s) && Step(c, s, p) != s
    ensures Rank(Step(c, s, p)) < Rank(s)
  {
    JoinsNewGroup(c, s);
    if p == P3 { Step3LowersRank(c, s); }
  }

  lemma RunsEnd(c: Config, acts: seq<Proc>)
    requires c.Valid()
    ensures Moves(Stepper(c), Init(c), acts) <= 29
  {
    RunReaches(c, []);
    forall s, p | Inv(c, s)
      ensures Inv(c, Stepper(c)(s, p)) && Rank(s) >= 0
    {
      StepKeepsInv(c, s, p);
    }
    forall s, p | Inv(c, s) && Stepper(c)(s, p) != s ensures Rank(Stepper(c)(s, p)) < Rank(s) {
      StepLowersRank(c, s, p);
    }
    MovesBounded(Stepper(c), s => Inv(c, s), s => Rank(s), p => true, Init(c), acts);
  }
}
