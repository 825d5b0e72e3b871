/** The two loops of the condition-variable program as they run: every atomic
    step updates the shared array and counters in place. */
module CondvarBufferProgram {
  import opened BoundedStack
  import opened CondvarBuffer

  class Buffer {
    const m: Params
    const buf: array<char>
    var count: int
    var lock: Owner
    var p: Pc
    var i: nat
    var regP: int
    var c: Pc
    var j: nat
    var regC: int
    var out: seq<char>
    ghost var history: seq<Op>

    ghost function Snapshot(): State
      reads this, buf
    {
      State(buf[..], count, lock, p, i, regP, c, j, regC, history, out, false)
    }

    ghost predicate Valid()
      reads this, buf
    {
      Inv(m, Snapshot())
    }

    /** The array accesses that the threads are about to make are within bounds. */
    ghost predicate InBounds()
      reads this
    {
      && (p == Access ==> 0 <= count < buf.Length && i < m.N())
      && (c == Access ==> 0 < count <= buf.Length)
    }

    constructor (m: Params)
      requires m.Valid()
      ensures this.m == m && fresh(buf) && Snapshot() == Init(m) && Valid()
    {
      this.m := m;
      buf := new char[m.max](k requires 0 <= k < m.max => m.junk[k]);
      count, lock, out, history := 0, Free, [], [];
      p, i, regP, c, j, regC := LoopTest, 0, 0, LoopTest, 0, 0;
      new;
      assert buf[..] == m.junk;
      InitInv(m);
    }

    /** One atomic step of `producer`. */
    method ProducerStep()
      requires InBounds() && Enabled(Snapshot(), RunProducer)
      modifies this, buf
      ensures Snapshot() == Step(m, old(Snapshot()), RunProducer)
    {
      match p
      case LoopTest => p := if i < m.N() then Lock else Done;
      case Lock | Woken => lock, p := Producer, Check;
      case Check => p := if count == m.max then CallWait else Access;
      case CallWait => lock, p := Free, Asleep;
      case Access =>
        buf[count] := m.input[i];
        history, p := history + [Push], Load;
      case Load => regP, p := count, Store;
      case Store => count, p := regP + 1, Signal;
      case Signal =>
        if c == Asleep { c := Woken; }
        p := Unlock;
      case Unlock => lock, i, p := Free, i + 1, LoopTest;
    }

    /** One atomic step of `consumer`. */
    method ConsumerStep()
      requires InBounds() && Enabled(Snapshot(), RunConsumer)
      modifies this
      ensures Snapshot() == Step(m, old(Snapshot()), RunConsumer)
    {
      match c
      case LoopTest => c := if j < m.N() then Lock else Done;
      case Lock | Woken => lock, c := Consumer, Check;
      case Check => c := if count == 0 then CallWait else Access;
      case CallWait => lock, c := Free, Asleep;
      case Access =>
        out, history, c := out + [buf[count - 1]], history + [Pop], Load;
      case Load => regC, c := count, Store;
      case Store => count, c := regC - 1, Signal;
      case Signal =>
        if p == Asleep { p := Woken; }
        c := Unlock;
      case Unlock => lock, j, c := Free, j + 1, LoopTest;
    }

    /** Runs both loops under any scheduler that wakes sleepers only by signals:
        they always finish, with an empty buffer and every item consumed. */
    method Execute()
      requires Valid() && Snapshot() == Init(m)
      modifies this, buf
      ensures Valid() && Finished(Snapshot()) && count == 0
      ensures Complete(history, m.N(), m.max) && |out| == m.N()
      ensures Follows(m, history, buf[..], out)
    {
      while p != Done || c != Done
        invariant Valid()
        decreases Rank(m, Snapshot())
      {
        ghost var s := Snapshot();
        if Quiescent(s) { Settled(m, s); }
        if
        case p != Done && p != Asleep && (p == Lock || p == Woken ==> lock == Free) =>
          StepKeepsInv(m, s, RunProducer);
          StepLowersRank(m, s, RunProducer);
          ProducerStep();
        case c != Done && c != Asleep && (c == Lock || c == Woken ==> lock == Free) =>
          StepKeepsInv(m, s, RunConsumer);
          StepLowersRank(m, s, RunConsumer);
          ConsumerStep();
      }
      Settled(m, Snapshot());
    }
  }
}
