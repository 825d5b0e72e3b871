/** The group-forming program as it runs: the processes change their groups, the
    FIFO and their own variables in place. */
module GroupFormationProgram {
  import opened ProcessGroups
  import opened GroupFormation

  class Processes {
    const c: Config
    var pc0: Pc
    var pc1: Pc
    var pc2: Pc
    var pc3: Pc
    var pc4: Pc
    var pc5: Pc
    var pgid: map<Proc, int>
    var fifo: bool
    var pipe: Pipe
    var own: int
    var got: int

    function Snapshot(): State
      reads this
    {
      State(pc0, pc1, pc2, pc3, pc4, pc5, pgid, fifo, pipe, own, got)
    }

    constructor (c: Config)
      ensures this.c == c && Snapshot() == Init(c)
    {
      this.c := c;
      pc0, pc1, pc2, pc3, pc4, pc5 := Fork, Unborn, Unborn, Unborn, Unborn, Unborn;
      pgid, fifo, pipe, own, got := map[P0 := c.group0], c.fifoThere, Empty, 0, 0;
    }

    /** `fork()`: the child starts in its parent's group. */
    method ForkChild(parent: Proc, child: Proc)
      modifies this`pgid
      ensures pgid == Inherit(old(pgid), parent, child)
    {
      pgid := pgid[child := Pgid(pgid, parent)];
    }

    method Turn3()
      modifies this
      ensures Snapshot() == Step3(c, old(Snapshot()))
    {
      match pc3
      case Fork =>
        ForkChild(P3, P4);
        pc3, pc4 := OwnGroup, Asleep;
      case OwnGroup => pgid, pc3 := pgid[P3 := c.pid3], ChildGroup;
      case ChildGroup => pgid, pc3 := pgid[P4 := Pgid(pgid, P3)], Access;
      case Access => pc3 := if fifo then Creat else Mkfifo;
      case Mkfifo => if fifo { pc3 := Failed; } else { fifo, pc3 := true, Creat; }
      case Creat => pc3 := Opening;
      case Opening => if pc5 in {Opening, Read, Join, Asleep, Failed} { pc3 := GetGroup; }
      case GetGroup => own, pc3 := Pgid(pgid, P3), Write;
      case Write => pipe, pc3 := Holding(own), Close;
      case Close => pc3 := Asleep;
      case _ =>
    }

    method Turn5()
      modifies this
      ensures Snapshot() == Step5(c, old(Snapshot()))
    {
      match pc5
      case Open => if fifo { pc5 := Opening; }
      case Opening => if pc3 in {Opening, GetGroup, Write, Close, Asleep} { pc5 := Read; }
      case Read =>
        if pipe.Holding? {
          got, pipe, pc5 := pipe.id, Empty, Join;
        } else if pc3 == Asleep {
          pc5 := Failed;
        }
      case Join =>
        if Members(pgid, got) != {} {
          pgid, pc5 := pgid[P5 := got], Asleep;
        } else {
          pc5 := Failed;
        }
      case _ =>
    }

    /** The next instruction of a process. */
    method Turn(p: Proc)
      modifies this
      ensures Snapshot() == Step(c, old(Snapshot()), p)
    {
      match p
      case P0 =>
        if pc0 == Fork {
          ForkChild(P0, P1);
          pc0, pc1 := ForkAgain, Fork;
        } else if pc0 == ForkAgain {
          ForkChild(P0, P2);
          pc0, pc2 := Asleep, Fork;
        }
      case P1 =>
        if pc1 == Fork {
          ForkChild(P1, P5);
          pc1, pc5 := Asleep, Open;
        }
      case P2 =>
        if pc2 == Fork {
          ForkChild(P2, P3);
          pc2, pc3 := Asleep, Fork;
        }
      case P3 => Turn3();
      case P4 =>
      case P5 => Turn5();
    }

    /** Lets any process that can move do so until all sleep. */
    method Execute()
      requires c.Valid() && Snapshot() == Init(c)
      modifies this
      ensures AllAsleep(Snapshot()) && Members(pgid, c.pid3) == {P3, P4, P5}
    {
      RunReaches(c, []);
      var done := false;
      while !done
        invariant Inv(c, Snapshot())
        invariant done ==> Quiescent(c, Snapshot())
        decreases !done, Rank(Snapshot())
      {
        ghost var s := Snapshot();
        if p :| p in {P0, P1, P2, P3, P4, P5} && Step(c, Snapshot(), p) != Snapshot() {
          StepKeepsInv(c, s, p);
          StepLowersRank(c, s, p);
          RankIsNat(c, Step(c, s, p));
          Turn(p);
        } else {
          forall p: Proc ensures Step(c, s, p) == s {
            match p case P0 => case P1 => case P2 => case P3 => case P4 => case P5 =>
          }
          done := true;
        }
      }
      Settled(c, Snapshot());
    }
  }
}
