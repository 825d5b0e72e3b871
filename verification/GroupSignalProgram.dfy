/** The signalling program as it runs: the processes, and the handler that
    interrupts process 0, change groups, FIFO and shared cell in place. */
module GroupSignalProgram {
  import opened ProcessGroups
  import opened GroupSignal
  import F = GroupFormation

  const ACTS := {Let(P0), Let(P1), Let(P2), Let(P3), Let(P4), Let(P5), Expire, Deliver}

  class Processes {
    const c: Config
    var pc0: Pc0
    var pc1: Parent
    var pc2: Parent
    var pc3: Pc3
    var pc4: Pc4
    var pc5: Pc5
    var pgid: map<Proc, int>
    var fifo: bool
    var pipe: Pipe
    var own: int
    var got: int
    var handlers: set<Proc>
    var shown0: int
    var shown5: int
    var cell: int
    var alarm: Alarm
    var target: int
    var kills: seq<Shot>
    var writes: seq<int>

    function Snapshot(): State
      reads this
    {
      State(pc0, pc1, pc2, pc3, pc4, pc5, pgid, fifo, pipe, own, got, handlers, shown0, shown5,
            Note(cell, writes, alarm, target, kills))
    }

    constructor (c: Config)
      ensures this.c == c && Snapshot() == Init(c)
    {
      this.c := c;
      pc0, pc1, pc2 := InitCell, Parent.Unborn, Parent.Unborn;
      pc3, pc4, pc5 := Pc3.Unborn, Pc4.Unborn, Pc5.Unborn;
      pgid, fifo, pipe, own, got := map[P0 := c.group0], c.fifoThere, Empty, 0, 0;
      handlers, shown0, shown5 := {}, 0, 0;
      cell, alarm, target, kills, writes := 0, Off, 0, [], [];
    }

    /** `*shared_pgid_3 = v` */
    method StoreCell(v: int)
      modifies this`cell, this`writes
      ensures cell == v && writes == old(writes) + [v]
    {
      cell, writes := v, writes + [v];
    }

    method ForkChild(parent: Proc, child: Proc)
      modifies this`pgid
      ensures pgid == Inherit(old(pgid), parent, child)
    {
      pgid := pgid[child := Pgid(pgid, parent)];
    }

    /** Process 0 up to the arming of its alarm. */
    method Prepare()
      requires alarm != Handling && alarm != Fatal && !HasArmed(pc0)
      modifies this`pc0, this`pc1, this`pc2, this`pgid, this`cell, this`writes, this`alarm, this`handlers
      ensures Snapshot() == Step0(c, old(Snapshot()))
    {
      match pc0
      case InitCell =>
        StoreCell(WAITING);
        pc0 := Pc0.Fork;
      case Fork =>
        ForkChild(P0, P1);
        pc0, pc1 := ForkAgain, Parent.Fork;
      case ForkAgain =>
        ForkChild(P0, P2);
        pc0, pc2 := Pc0.Install, Parent.Fork;
      case Install => handlers, pc0 := handlers + {P0}, Arm;
      case Arm => alarm, pc0 := Armed, Spin;
    }

    /** Process 0, unless its handler runs or the signal has ended it. */
    method MainStep()
      requires alarm != Handling && alarm != Fatal
      modifies this
      ensures Snapshot() == Step0(c, old(Snapshot()))
    {
      match pc0
      case InitCell | Fork | ForkAgain | Install | Arm => Prepare();
      case Spin => if cell != WAITING { pc0 := Disarm; }
      case Disarm =>
        if alarm == Armed { alarm := Off; }
        pc0 := Returning;
      case Returning => if alarm == Off { pc0 := Check; }
      case Check => pc0 := if cell == TIMEOUT then GaveUp else Pc0.Show;
      case Show => shown0, pc0 := cell, Target;
      case Target => target, pc0 := cell, Kill;
      case Kill => kills, pc0 := kills + [Shot(target, Members(pgid, target))], Unmap;
      case Unmap => pc0 := Pc0.Asleep;
      case Asleep =>
      case GaveUp =>
    }

    /** `sig_alrm` */
    method Handler()
      requires alarm == Handling
      modifies this`cell, this`writes, this`alarm
      ensures Snapshot() == Step0(c, old(Snapshot()))
    {
      StoreCell(TIMEOUT);
      alarm := Off;
    }

    method Turn3()
      modifies this`pc3, this`pc4, this`pgid, this`fifo, this`pipe, this`own, this`handlers
      ensures Snapshot() == Step3(c, old(Snapshot()))
    {
      match pc3
      case Unborn =>
      case Fork =>
        ForkChild(P3, P4);
        pc3, pc4 := OwnGroup, Pc4.Install;
      case OwnGroup => pgid, pc3 := pgid[P3 := c.pid3], ChildGroup;
      case ChildGroup => pgid, pc3 := pgid[P4 := Pgid(pgid, P3)], Access;
      case Access => pc3 := if fifo then Creat else Mkfifo;
      case Mkfifo => if fifo { pc3 := Pc3.Failed; } else { fifo, pc3 := true, Creat; }
      case Creat => pc3 := Pc3.Opening;
      case Opening => if ReaderCame(pc5) { pc3 := GetGroup; }
      case GetGroup => own, pc3 := Pgid(pgid, P3), Write;
      case Write => pipe, pc3 := Holding(own), Close;
      case Close => pc3 := Pc3.Install;
      case Install => handlers, pc3 := handlers + {P3}, Pc3.Asleep;
      case Asleep =>
      case Failed =>
    }

    method Turn5()
      modifies this`pc5, this`pgid, this`pipe, this`got, this`cell, this`writes, this`shown5, this`handlers
      ensures Snapshot() == Step5(c, old(Snapshot()))
    {
      match pc5
      case Unborn =>
      case Open => if fifo { pc5 := Pc5.Opening; }
      case Opening => if WriterCame(pc3) { pc5 := Read; }
      case Read =>
        if pipe.Holding? {
          got, pipe, pc5 := pipe.id, Empty, Join;
        } else if WriterClosed(pc3) {
          pc5 := Pc5.Failed;
        }
      case Join =>
        if Members(pgid, got) != {} {
          pgid, pc5 := pgid[P5 := got], Pc5.Show;
        } else {
          pc5 := Pc5.Failed;
        }
      case Show => shown5, pc5 := cell, Publish;
      case Publish =>
        StoreCell(got);
        pc5 := Pc5.Install;
      case Install => handlers, pc5 := handlers + {P5}, Pc5.Asleep;
      case Asleep =>
      case Failed =>
    }

    /** Processes 1 and 2, which fork once, and process 4. */
    method TurnOther(p: Proc)
      requires p in {P1, P2, P4}
      modifies this`pc1, this`pc2, this`pc3, this`pc4, this`pc5, this`pgid, this`handlers
      ensures Snapshot() == Step(c, old(Snapshot()), Let(p))
    {
      if p == P1 {
        if pc1.Fork? {
          ForkChild(P1, P5);
          pc1, pc5 := Parent.Asleep, Open;
        }
      } else if p == P2 {
        if pc2.Fork? {
          ForkChild(P2, P3);
          pc2, pc3 := Parent.Asleep, Pc3.Fork;
        }
      } else {
        if pc4.Install? { handlers, pc4 := handlers + {P4}, Pc4.Asleep; }
      }
    }

    /** Carries out one choice of the scheduler. */
    method Turn(a: Act)
      modifies this
      ensures Snapshot() == Step(c, old(Snapshot()), a)
    {
      if a == Expire {
        if alarm == Armed { alarm := Pending; }
      } else if a == Deliver {
        if alarm == Pending { alarm := if P0 in handlers then Handling else Fatal; }
      } else if a.p == P0 {
        if alarm == Handling { Handler(); } else if alarm != Fatal { MainStep(); }
      } else if a.p == P3 {
        Turn3();
      } else if a.p == P5 {
        Turn5();
      } else {
        TurnOther(a.p);
      }
    }

    /** Lets any process that can move do so, and the alarm expire at any moment,
        until all have come to rest. */
    method Execute()
      requires c.Valid() && Snapshot() == Init(c)
      modifies this
      ensures Inv(c, Snapshot()) && Members(pgid, c.pid3) == {P3, P4, P5} && handlers == {P0, P3, P4, P5}
      ensures || (pc0.Asleep? && kills == [Shot(c.pid3, {P3, P4, P5})])
              || (pc0.GaveUp? && kills == [] && TIMEOUT in writes)
    {
      RunReaches(c, []);
      var done := false;
      while !done
        invariant Inv(c, Snapshot())
        invariant done ==> Quiescent(c, Snapshot())
        decreases !done, Rank(Snapshot())
      {
        ghost var s := Snapshot();
        if a :| a in ACTS && Step(c, Snapshot(), a) != Snapshot() {
          StepKeepsInv(c, s, a);
          StepLowersRank(c, s, a);
          Turn(a);
        } else {
          forall p: Proc ensures Step(c, s, Let(p)) == s {
            assert Let(p) in ACTS by { match p case P0 => case P1 => case P2 => case P3 => case P4 => case P5 => }
          }
          assert Deliver in ACTS;
          done := true;
        }
      }
      Settled(c, Snapshot());
    }
  }
}
