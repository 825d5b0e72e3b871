/** The two functions of the program as they run: shared variables that each
    atomic step updates in place, and a scheduler that may pick either thread. */
module HaltBandProgram {
  import opened HaltBand

  class Counter {
    const c: Config
    var count: int
    var cond: Owner
    var mutex: Owner
    var pc1: Pc
    var pc2: Pc
    var reg1: int
    var reg2: int
    var out: seq<Line>
    ghost var lap: bool
    ghost var stores: seq<Write>

    ghost function Snapshot(): State
      reads this
    {
      State(count, cond, mutex, pc1, pc2, reg1, reg2, lap, stores, out)
    }

    constructor (c: Config)
      ensures this.c == c && Snapshot() == INIT
    {
      this.c := c;
      count, cond, mutex := 0, Free, Free;
      pc1, pc2, reg1, reg2 := LockCond, LockCond, 0, 0;
      out, lap, stores := [], false, [];
    }

    /** One atomic step of `functionCount1`. */
    method ThreadOne()
      requires Enabled(Snapshot(), RunOne)
      modifies this
      ensures Snapshot() == Step(c, old(Snapshot()), RunOne)
    {
      match pc1
      case LockCond | Woken => cond, pc1 := HeldByOne, TestLow;
      case TestLow => pc1 := if count >= c.halt1 then TestHigh else UnlockCond;
      case TestHigh => pc1 := if count <= c.halt2 then CallWait else UnlockCond;
      case CallWait => cond, pc1 := Free, Asleep;
      case UnlockCond => cond, pc1 := Free, LockCount;
      case LockCount => mutex, pc1 := HeldByOne, Load;
      case Load => reg1, pc1 := count, Store;
      case Store => count, stores, pc1 := reg1 + 1, stores + [ByOne], Print;
      case Print => out, pc1 := out + [Line(One, count)], UnlockCount;
      case UnlockCount => mutex, pc1 := Free, TestDone;
      case TestDone => pc1 := if count >= c.done then Returned else LockCond;
    }

    /** One atomic step of `functionCount2`. */
    method ThreadTwo()
      requires Enabled(Snapshot(), RunTwo)
      modifies this
      ensures Snapshot() == Step(c, old(Snapshot()), RunTwo)
    {
      match pc2
      case LockCond => cond, lap, pc2 := HeldByTwo, false, TestLow;
      case TestLow => pc2 := if count < c.halt1 then Signal else TestHigh;
      case TestHigh => pc2 := if count > c.halt2 then Signal else UnlockCond;
      case Signal =>
        if pc1 == Asleep { pc1 := Woken; }
        lap, pc2 := true, UnlockCond;
      case UnlockCond => cond, pc2 := Free, LockCount;
      case LockCount => mutex, pc2 := HeldByTwo, Load;
      case Load => reg2, pc2 := count, Store;
      case Store => count, stores, pc2 := reg2 + 1, stores + [ByTwo(lap)], Print;
      case Print => out, pc2 := out + [Line(Two, count)], UnlockCount;
      case UnlockCount => mutex, pc2 := Free, TestDone;
      case TestDone => pc2 := if count >= c.done then Returned else LockCond;
    }

    /** Runs both threads under any scheduler until neither can move.  The threads
        then have printed 1, 2, ..., count and returned, or the configuration is
        one that can strand thread one. */
    method Execute()
      requires Snapshot() == INIT
      modifies this
      ensures Quiescent(Snapshot())
      ensures Finished(Snapshot()) || (Stranded(Snapshot()) && c.CanStrand())
      ensures Finished(Snapshot()) ==> c.Goal() <= count <= c.Goal() + 1
      ensures |out| == count && forall i :: 0 <= i < count ==> out[i].value == i + 1
    {
      while true
        invariant Inv(c, Snapshot())
        decreases Rank(c, Snapshot())
      {
        ghost var s := Snapshot();
        var one := CanRunOne();
        var two := CanRunTwo();
        if !one && !two {
          Settled(c, s);
          return;
        }
        if
        case one =>
          StepLowersRank(c, s, RunOne);
          StepKeepsInv(c, s, RunOne);
          RankIsNat(c, s);
          ThreadOne();
        case two =>
          StepLowersRank(c, s, RunTwo);
          StepKeepsInv(c, s, RunTwo);
          RankIsNat(c, s);
          ThreadTwo();
      }
    }

    method CanRunOne() returns (b: bool)
      ensures b == Enabled(Snapshot(), RunOne)
    {
      b := && pc1 != Returned && pc1 != Asleep && pc1 != Signal
           && (pc1 == LockCond || pc1 == Woken ==> cond == Free)
           && (pc1 == LockCount ==> mutex == Free);
    }

    method CanRunTwo() returns (b: bool)
      ensures b == Enabled(Snapshot(), RunTwo)
    {
      b := && pc2 !in {Returned, CallWait, Asleep, Woken}
           && (pc2 == LockCond ==> cond == Free)
           && (pc2 == LockCount ==> mutex == Free);
    }
  }
}
