/** The two loops of the spinning program as they run: every atomic step updates
    the shared array and counters in place. */
module SpinBufferProgram {
  import opened BoundedStack
  import opened SpinBuffer

  class Buffer {
    const m: Params
    const buf: array<char>
    var count: int
    var lock: Owner
    var p: Pc
    var i: nat
    var regP: int
    var c: Pc
    var j: nat
    var regC: int
    var out: seq<char>
    ghost var history: seq<Op>

    ghost function Snapshot(): State
      reads this, buf
    {
      State(buf[..], count, lock, p, i, regP, c, j, regC, history, out, false)
    }

    ghost predicate Valid()
      reads this, buf
    {
      Inv(m, Snapshot())
    }

    /** The array accesses that the threads are about to make are within bounds. */
    ghost predicate InBounds()
      reads this
    {
      && (p == Access ==> 0 <= count < buf.Length && i < m.N())
      && (c == Access ==> 0 < count <= buf.Length)
    }

    constructor (m: Params)
      requires m.Valid()
      ensures this.m == m && fresh(buf) && Snapshot() == Init(m) && Valid()
    {
      this.m := m;
      buf := new char[m.max](k requires 0 <= k < m.max => m.junk[k]);
      count, lock, out, history := 0, Free, [], [];
      p, i, regP, c, j, regC := LoopTest, 0, 0, LoopTest, 0, 0;
      new;
      assert buf[..] == m.junk;
      InitInv(m);
    }

    /** One atomic step of `producer`; it may be a vain turn of the spin loop. */
    method ProducerStep()
      requires InBounds()
      modifies this, buf
      ensures Snapshot() == Step(m, old(Snapshot()), RunProducer)
    {
      match p
      case LoopTest => p := if i < m.N() then Spin else Done;
      case Spin => if count != m.max { p := Lock; }
      case Lock => if lock == Free { lock, p := Producer, Access; }
      case Access =>
        buf[count] := m.input[i];
        history, p := history + [Push], Load;
      case Load => regP, p := count, Store;
      case Store => count, p := regP + 1, Unlock;
      case Unlock => lock, i, p := Free, i + 1, LoopTest;
      case Done =>
    }

    /** One atomic step of `consumer`. */
    method ConsumerStep()
      requires InBounds()
      modifies this
      ensures Snapshot() == Step(m, old(Snapshot()), RunConsumer)
    {
      match c
      case LoopTest => c := if j < m.N() then Spin else Done;
      case Spin => if count != 0 { c := Lock; }
      case Lock => if lock == Free { lock, c := Consumer, Access; }
      case Access =>
        out, history, c := out + [buf[count - 1]], history + [Pop], Load;
      case Load => regC, c := count, Store;
      case Store => count, c := regC - 1, Unlock;
      case Unlock => lock, j, c := Free, j + 1, LoopTest;
      case Done =>
    }

    method Turn(a: Act)
      requires Valid()
      modifies this, buf
      ensures Valid() && Snapshot() == Step(m, old(Snapshot()), a)
    {
      StepKeepsInv(m, Snapshot(), a);
      if a == RunProducer { ProducerStep(); } else { ConsumerStep(); }
    }

    method Moving(a: Act) returns (b: bool)
      ensures b <==> Step(m, Snapshot(), a) != Snapshot()
    {
      b := if a == RunProducer
           then p != Done && (p == Spin ==> count != m.max) && (p == Lock ==> lock == Free)
           else c != Done && (c == Spin ==> count != 0) && (c == Lock ==> lock == Free);
    }

    /** Runs both loops under any scheduler that grants at most `patience` vain
        turns in all: they always finish, with every item consumed. */
    method Execute(patience: nat)
      requires Valid() && Snapshot() == Init(m)
      modifies this, buf
      ensures Valid() && Finished(Snapshot()) && count == 0
      ensures Complete(history, m.N(), m.max) && |out| == m.N()
      ensures Follows(m, history, buf[..], out)
    {
      var vain := patience;
      while p != Done || c != Done
        invariant Valid() && vain >= 0
        decreases Rank(m, Snapshot()), vain
      {
        ghost var s := Snapshot();
        if Quiescent(m, s) { Settled(m, s); }
        var producerMoves := Moving(RunProducer);
        var consumerMoves := Moving(RunConsumer);
        if
        case producerMoves =>
          StepLowersRank(m, s, RunProducer);
          Turn(RunProducer);
        case consumerMoves =>
          StepLowersRank(m, s, RunConsumer);
          Turn(RunConsumer);
        case !producerMoves && vain > 0 =>
          Turn(RunProducer);
          vain := vain - 1;
        case !consumerMoves && vain > 0 =>
          Turn(RunConsumer);
          vain := vain - 1;
      }
      Settled(m, Snapshot());
    }
  }
}
