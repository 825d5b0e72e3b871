/** A chain of processes 0, 1, ..., n, each forked by the one before.  Process
    i < n prints 2i, waits for its child and prints 2i+1; the leaf prints 2n.
    Printing goes through a buffer that a fork copies and an exit flushes; at the
    start it may hold text that is still `pending`.  The program is the chain of
    depth n = 2 with nothing pending.

    A schedule is a sequence of process numbers; choosing a process that does not
    exist, waits or is dead changes nothing. */
module ForkOutput {
  import opened Schedules

  /** A line-buffered stream writes every printed line at once; a fully buffered
      one writes only when the process exits. */
  datatype Mode = LineBuffered | FullyBuffered

  datatype Pc = Unborn | Fork | First | Wait | Second | Exit | Dead

  /** `printed` is a history variable: the tokens passed to the printing function,
      in order. */
  datatype State = State(pcs: seq<Pc>, bufs: seq<seq<nat>>, printed: seq<nat>, out: seq<nat>)

  /** The first instruction of process `i` in a chain of depth `n`. */
  function Start(n: nat, i: nat): Pc { if i < n then Fork else First }

  function Init(n: nat, pending: seq<nat>): State {
    State(seq(n + 1, (i: nat) => if i == 0 then Start(n, 0) else Unborn),
          seq(n + 1, (i: nat) => if i == 0 then pending else []), [], [])
  }

  predicate Enabled(s: State, i: nat) {
    && i < |s.pcs| && s.pcs[i] != Unborn && s.pcs[i] != Dead
    && (s.pcs[i] == Fork ==> i + 1 < |s.pcs|)
    && (s.pcs[i] == Wait ==> i + 1 < |s.pcs| && s.pcs[i + 1] == Dead)
  }

  function Printed(mode: Mode, s: State, i: nat, token: nat, next: Pc): State
    requires i < |s.pcs| == |s.bufs|
  {
    match mode
    case LineBuffered =>
      State(s.pcs[i := next], s.bufs[i := []], s.printed + [token], s.out + s.bufs[i] + [token])
    case FullyBuffered =>
      State(s.pcs[i := next], s.bufs[i := s.bufs[i] + [token]], s.printed + [token], s.out)
  }

  function Step(n: nat, mode: Mode, s: State, i: nat): State {
    if !Enabled(s, i) || |s.pcs| != |s.bufs| then s
    else match s.pcs[i]
      case Fork => s.(pcs := s.pcs[i := First][i + 1 := Start(n, i + 1)], bufs := s.bufs[i + 1 := s.bufs[i]])
      case First => Printed(mode, s, i, 2 * i, if i < n then Wait else Exit)
      case Wait => s.(pcs := s.pcs[i := Second])
      case Second => Printed(mode, s, i, 2 * i + 1, Exit)
      case Exit => s.(pcs := s.pcs[i := Dead], bufs := s.bufs[i := []], out := s.out + s.bufs[i])
      case _ => s
  }

  function Stepper(n: nat, mode: Mode): (State, nat) -> State { (s: State, i: nat) => Step(n, mode, s, i) }

  function Run(n: nat, mode: Mode, pending: seq<nat>, acts: seq<nat>): State {
    Fold(Stepper(n, mode), Init(n, pending), acts)
  }

  /** Some run in which all processes exit writes `w`. */
  ghost predicate Outputs(n: nat, mode: Mode, pending: seq<nat>, w: seq<nat>) {
    exists acts :: Finished(Run(n, mode, pending, acts)) && Run(n, mode, pending, acts).out == w
  }

  predicate Finished(s: State) { forall i :: 0 <= i < |s.pcs| ==> s.pcs[i] == Dead }

  predicate Quiescent(s: State) { forall i :: 0 <= i < |s.pcs| ==> !Enabled(s, i) }

  // ---------------------------------------------------------------------------
  // The shape of the chain, in both modes
  // ---------------------------------------------------------------------------

  ghost predicate Chain(n: nat, s: State) {
    && |s.pcs| == |s.bufs| == n + 1 && s.pcs[0] != Unborn
    && s.pcs[n] in {Unborn, First, Exit, Dead}
    && (forall i :: 0 <= i < n ==> (s.pcs[i] in {Unborn, Fork} <==> s.pcs[i + 1] == Unborn))
    && (forall i :: 0 <= i < n && s.pcs[i] in {Second, Exit, Dead} ==> s.pcs[i + 1] == Dead)
  }

  lemma StepKeepsChain(n: nat, mode: Mode, s: State, i: nat)
    requires Chain(n, s)
    ensures Chain(n, Step(n, mode, s, i))
  {
    if Enabled(s, i) {
      var t := Step(n, mode, s, i);
      if s.pcs[i] == Fork {
        assert t.pcs == s.pcs[i := First][i + 1 := Start(n, i + 1)] && s.pcs[i + 1] == Unborn;
        assert i + 1 < n ==> s.pcs[i + 2] == Unborn;
      } else {
        var next := t.pcs[i];
        assert t.pcs == s.pcs[i := next];
        assert i < n ==> s.pcs[i + 1] != Unborn;
        assert next == Second && i < n ==> s.pcs[i + 1] == Dead;
        assert i > 0 ==> s.pcs[i - 1] !in {Unborn, Fork, Second, Exit, Dead};
      }
    }
  }

  /** Descend from a living process to one that can move. */
  lemma {:induction false} FindMover(n: nat, s: State, i: nat) returns (j: nat)
    requires Chain(n, s) && i <= n && s.pcs[i] != Unborn && s.pcs[i] != Dead
    ensures j <= n && Enabled(s, j)
    decreases n - i
  {
    if Enabled(s, i) { j := i; } else { j := FindMover(n, s, i + 1); }
  }

  lemma {:induction false} DeadBelow(n: nat, s: State, i: nat)
    requires Chain(n, s) && i <= n && s.pcs[0] == Dead
    ensures s.pcs[i] == Dead
  {
    if i > 0 { DeadBelow(n, s, i - 1); }
  }

  /** Some process can move until all are dead. */
  lemma Settled(n: nat, s: State)
    requires Chain(n, s) && Quiescent(s)
    ensures Finished(s)
  {
    if s.pcs[0] == Dead {
      forall i | 0 <= i <= n ensures s.pcs[i] == Dead { DeadBelow(n, s, i); }
    } else {
      var j := FindMover(n, s, 0);
    }
  }

  function PcRank(pc: Pc): nat {
    match pc
    case Unborn => 6 case Fork => 5 case First => 4 case Wait => 3 case Second => 2 case Exit => 1 case Dead => 0
  }

  function Rank(pcs: seq<Pc>): nat {
    if pcs == [] then 0 else PcRank(pcs[0]) + Rank(pcs[1..])
  }

  lemma {:induction false} RankUpdate(pcs: seq<Pc>, i: nat, pc: Pc)
    requires i < |pcs|
    ensures Rank(pcs[i := pc]) == Rank(pcs) - PcRank(pcs[i]) + PcRank(pc)
  {
    if i > 0 {
      assert pcs[i := pc][1..] == pcs[1..][i - 1 := pc];
      RankUpdate(pcs[1..], i - 1, pc);
    } else {
      assert pcs[i := pc][1..] == pcs[1..];
    }
  }

  lemma StepLowersRank(n: nat, mode: Mode, s: State, i: nat)
    requires Chain(n, s) && Enabled(s, i)
    ensures Rank(Step(n, mode, s, i).pcs) < Rank(s.pcs) && Step(n, mode, s, i) != s
  {
    var pc := Step(n, mode, s, i).pcs[i];
    RankUpdate(s.pcs, i, pc);
    if s.pcs[i] == Fork {
      RankUpdate(s.pcs[i := First], i + 1, Start(n, i + 1));
    }
  }

  lemma {:induction false} RankAtMost(pcs: seq<Pc>)
    ensures Rank(pcs) <= 6 * |pcs|
  {
    if pcs != [] { RankAtMost(pcs[1..]); }
  }

  lemma InitChain(n: nat, pending: seq<nat>)
    ensures Chain(n, Init(n, pending))
  {
  }

  lemma RunKeepsChain(n: nat, mode: Mode, pending: seq<nat>, acts: seq<nat>)
    ensures Chain(n, Run(n, mode, pending, acts))
  {
    InitChain(n, pending);
    forall s, i | Chain(n, s) ensures Chain(n, Stepper(n, mode)(s, i)) {
      StepKeepsChain(n, mode, s, i);
    }
    FoldKeeps(Stepper(n, mode), s => Chain(n, s), Init(n, pending), acts);
  }

  /** Termination: no scheduling makes more than 6 (n + 1) moves, and when nobody
      can move all processes are dead. */
  lemma RunsEnd(n: nat, mode: Mode, pending: seq<nat>, acts: seq<nat>)
    ensures Moves(Stepper(n, mode), Init(n, pending), acts) <= 6 * (n + 1)
    ensures Quiescent(Run(n, mode, pending, acts)) ==> Finished(Run(n, mode, pending, acts))
  {
    InitChain(n, pending);
    forall s, i | Chain(n, s) ensures Chain(n, Stepper(n, mode)(s, i)) {
      StepKeepsChain(n, mode, s, i);
    }
    forall s, i | Chain(n, s) && Stepper(n, mode)(s, i) != s
      ensures Rank(Stepper(n, mode)(s, i).pcs) < Rank(s.pcs)
    {
      StepLowersRank(n, mode, s, i);
    }
    MovesBounded(Stepper(n, mode), s => Chain(n, s), (s: State) => Rank(s.pcs), i => true, Init(n, pending), acts);
    RankAtMost(Init(n, pending).pcs);
    RunKeepsChain(n, mode, pending, acts);
    if Quiescent(Run(n, mode, pending, acts)) { Settled(n, Run(n, mode, pending, acts)); }
  }

  // ---------------------------------------------------------------------------
  // Fully buffered: one output, whatever the schedule
  // ---------------------------------------------------------------------------

  /** What process `i` prints. */
  function Tokens(n: nat, i: nat): seq<nat> { if i == n then [2 * n] else [2 * i, 2 * i + 1] }

  /** What the processes from `k` upwards write: the leaf, then each parent,
      bottom-up, each the pending text and its own tokens. */
  function Tail(n: nat, pending: seq<nat>, k: nat): seq<nat>
    requires k <= n + 1
    decreases n + 1 - k
  {
    if k == n + 1 then [] else Tail(n, pending, k + 1) + pending + Tokens(n, k)
  }

  /** The contents of the buffer of process `i`, from its program counter. */
  function Buffered(n: nat, pending: seq<nat>, i: nat, pc: Pc): seq<nat> {
    match pc
    case Unborn => []
    case Fork => pending
    case First => pending
    case Wait => pending + [2 * i]
    case Second => pending + [2 * i]
    case Exit => pending + Tokens(n, i)
    case Dead => []
  }

  ghost predicate Alive(s: State, k: nat) {
    && k <= |s.pcs|
    && (forall i :: 0 <= i < k ==> s.pcs[i] != Dead) && (forall i :: k <= i < |s.pcs| ==> s.pcs[i] == Dead)
  }

  ghost predicate Buffers(n: nat, pending: seq<nat>, s: State)
    requires Chain(n, s)
  {
    forall i :: 0 <= i <= n ==> s.bufs[i] == Buffered(n, pending, i, s.pcs[i])
  }

  ghost predicate FullInv(n: nat, pending: seq<nat>, s: State) {
    && Chain(n, s) && Buffers(n, pending, s)
    && exists k :: Alive(s, k) && s.out == Tail(n, pending, k)
  }

  /** A step other than a fork touches one process only. */
  lemma StepIsLocal(n: nat, mode: Mode, s: State, i: nat)
    requires Chain(n, s) && Enabled(s, i) && s.pcs[i] != Fork
    ensures var t := Step(n, mode, s, i);
      && |t.pcs| == |t.bufs| == n + 1
      && t.pcs == s.pcs[i := t.pcs[i]] && t.bufs == s.bufs[i := t.bufs[i]]
  {
  }

  lemma BufferAfter(n: nat, pending: seq<nat>, s: State, i: nat)
    requires Chain(n, s) && Enabled(s, i) && s.pcs[i] != Fork
    requires s.bufs[i] == Buffered(n, pending, i, s.pcs[i])
    ensures var t := Step(n, FullyBuffered, s, i); t.bufs[i] == Buffered(n, pending, i, t.pcs[i])
  {
    assert pending + [2 * i] + [2 * i + 1] == pending + [2 * i, 2 * i + 1];
  }

  lemma StepKeepsBuffers(n: nat, pending: seq<nat>, s: State, i: nat)
    requires Chain(n, s) && Buffers(n, pending, s)
    ensures Chain(n, Step(n, FullyBuffered, s, i)) && Buffers(n, pending, Step(n, FullyBuffered, s, i))
  {
    StepKeepsChain(n, FullyBuffered, s, i);
    if Enabled(s, i) && s.pcs[i] != Fork {
      StepIsLocal(n, FullyBuffered, s, i);
      BufferAfter(n, pending, s, i);
    }
  }

  lemma StepKeepsFullInv(n: nat, pending: seq<nat>, s: State, i: nat)
    requires FullInv(n, pending, s)
    ensures FullInv(n, pending, Step(n, FullyBuffered, s, i))
  {
    var t := Step(n, FullyBuffered, s, i);
    StepKeepsBuffers(n, pending, s, i);
    var k :| Alive(s, k) && s.out == Tail(n, pending, k);
    if Enabled(s, i) && s.pcs[i] == Exit {
      ExitFlushes(n, pending, s, i, k);
    } else {
      OthersKeepOutput(n, s, i, k);
    }
  }

  /** A process exits only after all those below it, and appends its buffer. */
  lemma ExitFlushes(n: nat, pending: seq<nat>, s: State, i: nat, k: nat)
    requires Chain(n, s) && Buffers(n, pending, s) && Alive(s, k) && s.out == Tail(n, pending, k)
    requires Enabled(s, i) && s.pcs[i] == Exit
    ensures var t := Step(n, FullyBuffered, s, i); Alive(t, i) && t.out == Tail(n, pending, i)
  {
    assert i < n ==> s.pcs[i + 1] == Dead;
    assert k == i + 1;
    assert s.out + (pending + Tokens(n, i)) == s.out + pending + Tokens(n, i);
  }

  lemma OthersKeepOutput(n: nat, s: State, i: nat, k: nat)
    requires Chain(n, s) && Alive(s, k) && !(Enabled(s, i) && s.pcs[i] == Exit)
    ensures var t := Step(n, FullyBuffered, s, i); Alive(t, k) && t.out == s.out
  {
  }

  lemma RunKeepsFullInv(n: nat, pending: seq<nat>, acts: seq<nat>)
    ensures FullInv(n, pending, Run(n, FullyBuffered, pending, acts))
  {
    InitChain(n, pending);
    assert Alive(Init(n, pending), n + 1) && Init(n, pending).out == Tail(n, pending, n + 1);
    forall s, i | FullInv(n, pending, s) ensures FullInv(n, pending, Stepper(n, FullyBuffered)(s, i)) {
      StepKeepsFullInv(n, pending, s, i);
    }
    FoldKeeps(Stepper(n, FullyBuffered), s => FullInv(n, pending, s), Init(n, pending), acts);
  }

  /** From every state some schedule finishes. */
  lemma {:induction false} Finish(n: nat, mode: Mode, s: State) returns (acts: seq<nat>)
    requires Chain(n, s)
    ensures Finished(Fold(Stepper(n, mode), s, acts))
    decreases Rank(s.pcs)
  {
    if Quiescent(s) {
      Settled(n, s);
      acts := [];
    } else {
      var i: nat :| i < |s.pcs| && Enabled(s, i);
      StepKeepsChain(n, mode, s, i);
      StepLowersRank(n, mode, s, i);
      var t := Stepper(n, mode)(s, i);
      var rest := Finish(n, mode, t);
      acts := [i] + rest;
      assert acts[1..] == rest;
    }
  }

  /** Confluence: the interleavings of a chain of any depth have one output. */
  lemma FullyBufferedOutputsExactly(n: nat, pending: seq<nat>, w: seq<nat>)
    ensures Outputs(n, FullyBuffered, pending, w) <==> w == Tail(n, pending, 0)
  {
    if acts :| Finished(Run(n, FullyBuffered, pending, acts)) && Run(n, FullyBuffered, pending, acts).out == w {
      RunKeepsFullInv(n, pending, acts);
    }
    if w == Tail(n, pending, 0) {
      InitChain(n, pending);
      var acts := Finish(n, FullyBuffered, Init(n, pending));
      RunKeepsFullInv(n, pending, acts);
    }
  }

  /** A fork copies what is pending and nothing else: no process prints before it
      has forked. */
  lemma PendingAtFork(n: nat, pending: seq<nat>, acts: seq<nat>, i: nat)
    requires i <= n
    requires (RunKeepsChain(n, FullyBuffered, pending, acts); Run(n, FullyBuffered, pending, acts).pcs[i] == Fork)
    ensures (RunKeepsChain(n, FullyBuffered, pending, acts); Run(n, FullyBuffered, pending, acts).bufs[i] == pending)
  {
    RunKeepsFullInv(n, pending, acts);
  }

  /** With nothing pending, as in the program, every buffer is empty at its fork. */
  lemma EmptyAtFork(n: nat, acts: seq<nat>, i: nat)
    requires i <= n
    requires (RunKeepsChain(n, FullyBuffered, [], acts); Run(n, FullyBuffered, [], acts).pcs[i] == Fork)
    ensures (RunKeepsChain(n, FullyBuffered, [], acts); Run(n, FullyBuffered, [], acts).bufs[i] == [])
  {
    PendingAtFork(n, [], acts, i);
  }

  /** Pending text comes out once for each process. */
  lemma {:induction false} TailLength(n: nat, pending: seq<nat>, k: nat)
    requires k <= n
    ensures |Tail(n, pending, k)| == (n + 1 - k) * |pending| + 2 * (n - k) + 1
    decreases n - k
  {
    if k < n {
      TailLength(n, pending, k + 1);
      assert (n + 1 - k) * |pending| == (n - k) * |pending| + |pending|;
    } else {
      assert Tail(n, pending, n) == [] + pending + [2 * n];
    }
  }

  // ---------------------------------------------------------------------------
  // Line buffered: exactly the linear extensions of a partial order
  // ---------------------------------------------------------------------------

  /** The last token that process `i` prints. */
  function LastToken(n: nat, i: nat): nat { if i < n then 2 * i + 1 else 2 * n }

  /** 2i comes before 2i+1, and so does the last token of process i's child. */
  ghost predicate Respects(n: nat, w: seq<nat>) {
    forall j, i: nat :: 0 <= j < |w| && w[j] == 2 * i + 1 ==> 2 * i in w[..j] && LastToken(n, i + 1) in w[..j]
  }

  ghost predicate Distinct(w: seq<nat>) { forall i, j :: 0 <= i < j < |w| ==> w[i] != w[j] }

  ghost predicate LinearExtension(n: nat, w: seq<nat>) {
    && Distinct(w) && (forall t: nat :: t in w <==> t <= 2 * n) && Respects(n, w)
  }

  /** Process `i` has printed its first, or its last, token. */
  ghost predicate DidFirst(pc: Pc) { pc in {Wait, Second, Exit, Dead} }

  ghost predicate DidLast(pc: Pc) { pc in {Exit, Dead} }

  /** What comes out when the tokens `v` are printed: the pending text before each
      process's first token. */
  function Expanded(pending: seq<nat>, v: seq<nat>): seq<nat> {
    if v == [] then []
    else
      var last := v[|v| - 1];
      Expanded(pending, v[..|v| - 1]) + (if last % 2 == 0 then pending else []) + [last]
  }

  lemma ExpandedFirst(pending: seq<nat>, v: seq<nat>, i: nat)
    ensures Expanded(pending, v + [2 * i]) == Expanded(pending, v) + pending + [2 * i]
  {
    assert (v + [2 * i])[..|v|] == v;
  }

  lemma ExpandedSecond(pending: seq<nat>, v: seq<nat>, i: nat)
    ensures Expanded(pending, v + [2 * i + 1]) == Expanded(pending, v) + [2 * i + 1]
  {
    assert (v + [2 * i + 1])[..|v|] == v;
    assert Expanded(pending, v) + [] == Expanded(pending, v);
  }

  lemma {:induction false} ExpandedNothing(v: seq<nat>)
    ensures Expanded([], v) == v
  {
    if v != [] {
      ExpandedNothing(v[..|v| - 1]);
      assert v == v[..|v| - 1] + [v[|v| - 1]];
    }
  }

  /** The pending text lies in the buffer of a process until it first prints. */
  function Unprinted(pending: seq<nat>, pc: Pc): seq<nat> {
    match pc case Fork => pending case First => pending case _ => []
  }

  ghost predicate LineBuffers(n: nat, pending: seq<nat>, s: State)
    requires Chain(n, s)
  {
    forall i :: 0 <= i <= n ==> s.bufs[i] == Unprinted(pending, s.pcs[i])
  }

  ghost predicate LineOrder(n: nat, s: State)
    requires Chain(n, s)
  {
    && Distinct(s.printed) && Respects(n, s.printed)
    && (forall t :: t in s.printed ==> t <= 2 * n)
    && (forall i :: 0 <= i <= n ==> (2 * i in s.printed <==> DidFirst(s.pcs[i])))
    && (forall i :: 0 <= i < n ==> (2 * i + 1 in s.printed <==> DidLast(s.pcs[i])))
  }

  ghost predicate LineInv(n: nat, pending: seq<nat>, s: State) {
    Chain(n, s) && LineBuffers(n, pending, s) && LineOrder(n, s) && s.out == Expanded(pending, s.printed)
  }

  /** What one printed token does to the output. */
  lemma PrintKeepsOrder(n: nat, out: seq<nat>, token: nat)
    requires Distinct(out) && Respects(n, out) && token !in out
    requires forall i: nat :: token == 2 * i + 1 ==> 2 * i in out && LastToken(n, i + 1) in out
    ensures Distinct(out + [token]) && Respects(n, out + [token])
  {
    var w := out + [token];
    forall j, i: nat | 0 <= j < |w| && w[j] == 2 * i + 1
      ensures 2 * i in w[..j] && LastToken(n, i + 1) in w[..j]
    {
      if j < |out| { assert w[..j] == out[..j]; } else { assert w[..j] == out; }
    }
  }

  /** Steps that print nothing leave the output as it is. */
  ghost predicate Prints(s: State, i: nat) {
    Enabled(s, i) && s.pcs[i] in {First, Second}
  }

  lemma StepKeepsLineBuffers(n: nat, pending: seq<nat>, s: State, i: nat)
    requires Chain(n, s) && LineBuffers(n, pending, s)
    ensures var t := Step(n, LineBuffered, s, i); Chain(n, t) && LineBuffers(n, pending, t)
  {
    StepKeepsChain(n, LineBuffered, s, i);
    if Enabled(s, i) && s.pcs[i] != Fork {
      StepIsLocal(n, LineBuffered, s, i);
      LineBufferAfter(n, pending, s, i);
    }
  }

  lemma LineBufferAfter(n: nat, pending: seq<nat>, s: State, i: nat)
    requires Chain(n, s) && Enabled(s, i) && s.pcs[i] != Fork
    requires s.bufs[i] == Unprinted(pending, s.pcs[i])
    ensures var t := Step(n, LineBuffered, s, i); t.bufs[i] == Unprinted(pending, t.pcs[i])
  {
  }

  lemma StepPrints(n: nat, s: State, i: nat, token: nat)
    requires Chain(n, s) && Prints(s, i) && token == if s.pcs[i] == First then 2 * i else 2 * i + 1
    ensures var t := Step(n, LineBuffered, s, i);
      t.out == s.out + s.bufs[i] + [token] && t.printed == s.printed + [token]
  {
  }

  lemma SilentStepPrintsNothing(n: nat, pending: seq<nat>, s: State, i: nat)
    requires Chain(n, s) && LineBuffers(n, pending, s) && !Prints(s, i)
    ensures var t := Step(n, LineBuffered, s, i); t.out == s.out && t.printed == s.printed
  {
    if Enabled(s, i) && s.pcs[i] == Exit { assert s.bufs[i] == []; }
  }

  lemma FirstExpands(n: nat, pending: seq<nat>, s: State, i: nat)
    requires Chain(n, s) && LineBuffers(n, pending, s) && s.out == Expanded(pending, s.printed)
    requires Enabled(s, i) && s.pcs[i] == First
    ensures var t := Step(n, LineBuffered, s, i); t.out == Expanded(pending, t.printed)
  {
    StepPrints(n, s, i, 2 * i);
    assert s.bufs[i] == pending;
    ExpandedFirst(pending, s.printed, i);
  }

  lemma SecondExpands(n: nat, pending: seq<nat>, s: State, i: nat)
    requires Chain(n, s) && LineBuffers(n, pending, s) && s.out == Expanded(pending, s.printed)
    requires Enabled(s, i) && s.pcs[i] == Second
    ensures var t := Step(n, LineBuffered, s, i); t.out == Expanded(pending, t.printed)
  {
    StepPrints(n, s, i, 2 * i + 1);
    assert s.bufs[i] == [] && s.out + [] == s.out;
    ExpandedSecond(pending, s.printed, i);
  }

  lemma StepExpands(n: nat, pending: seq<nat>, s: State, i: nat)
    requires Chain(n, s) && LineBuffers(n, pending, s) && s.out == Expanded(pending, s.printed)
    ensures var t := Step(n, LineBuffered, s, i); t.out == Expanded(pending, t.printed)
  {
    if !Prints(s, i) {
      SilentStepPrintsNothing(n, pending, s, i);
    } else if s.pcs[i] == First {
      FirstExpands(n, pending, s, i);
    } else {
      SecondExpands(n, pending, s, i);
    }
  }

  lemma SilentStepKeepsOrder(n: nat, s: State, i: nat)
    requires Chain(n, s) && LineOrder(n, s) && !Prints(s, i)
    ensures var t := Step(n, LineBuffered, s, i); Chain(n, t) && LineOrder(n, t)
  {
    StepKeepsChain(n, LineBuffered, s, i);
    assert Step(n, LineBuffered, s, i).printed == s.printed;
  }

  lemma PrintingStepKeepsOrder(n: nat, s: State, i: nat)
    requires Chain(n, s) && LineOrder(n, s) && Prints(s, i)
    ensures var t := Step(n, LineBuffered, s, i); Chain(n, t) && LineOrder(n, t)
  {
    var t := Step(n, LineBuffered, s, i);
    StepKeepsChain(n, LineBuffered, s, i);
    var token := if s.pcs[i] == First then 2 * i else 2 * i + 1;
    assert t.printed == s.printed + [token] && t.pcs == s.pcs[i := t.pcs[i]];
    if s.pcs[i] == Second {
      assert i < n && s.pcs[i + 1] == Dead;
    }
    PrintKeepsOrder(n, s.printed, token);
    forall k | 0 <= k <= n ensures 2 * k in t.printed <==> DidFirst(t.pcs[k]) {
      assert 2 * k in t.printed <==> 2 * k in s.printed || 2 * k == token;
    }
    forall k | 0 <= k < n ensures 2 * k + 1 in t.printed <==> DidLast(t.pcs[k]) {
      assert 2 * k + 1 in t.printed <==> 2 * k + 1 in s.printed || 2 * k + 1 == token;
    }
  }

  lemma StepKeepsLineInv(n: nat, pending: seq<nat>, s: State, i: nat)
    requires LineInv(n, pending, s)
    ensures LineInv(n, pending, Step(n, LineBuffered, s, i))
  {
    StepKeepsLineBuffers(n, pending, s, i);
    StepExpands(n, pending, s, i);
    if Prints(s, i) { PrintingStepKeepsOrder(n, s, i); } else { SilentStepKeepsOrder(n, s, i); }
  }

  /** A parent's pair after all the tokens of those below it. */
  lemma PairKeepsOrder(n: nat, below: seq<nat>, k: nat)
    requires k < n && Distinct(below) && Respects(n, below)
    requires forall t: nat :: t in below <==> 2 * (k + 1) <= t <= 2 * n
    ensures var w := below + [2 * k] + [2 * k + 1];
      Distinct(w) && Respects(n, w) && forall t: nat :: t in w <==> 2 * k <= t <= 2 * n
  {
    PrintKeepsOrder(n, below, 2 * k);
    PrintKeepsOrder(n, below + [2 * k], 2 * k + 1);
  }

  /** With nothing pending, the fully buffered output respects the order as well, so
      buffering neither loses nor repeats a token. */
  lemma {:induction false} TailRespectsOrder(n: nat, k: nat)
    requires k <= n
    ensures Distinct(Tail(n, [], k)) && Respects(n, Tail(n, [], k))
    ensures forall t: nat :: t in Tail(n, [], k) <==> 2 * k <= t <= 2 * n
    decreases n - k
  {
    if k == n {
      assert Tail(n, [], n) == [] + [2 * n];
      PrintKeepsOrder(n, [], 2 * n);
    } else {
      TailRespectsOrder(n, k + 1);
      PairKeepsOrder(n, Tail(n, [], k + 1), k);
      assert Tail(n, [], k) == Tail(n, [], k + 1) + [2 * k] + [2 * k + 1];
    }
  }

  lemma FullOutputIsLineOutput(n: nat)
    ensures LinearExtension(n, Tail(n, [], 0))
  {
    TailRespectsOrder(n, 0);
  }

  lemma RunKeepsLineInv(n: nat, pending: seq<nat>, acts: seq<nat>)
    ensures LineInv(n, pending, Run(n, LineBuffered, pending, acts))
  {
    InitChain(n, pending);
    forall s, i | LineInv(n, pending, s) ensures LineInv(n, pending, Stepper(n, LineBuffered)(s, i)) {
      StepKeepsLineInv(n, pending, s, i);
    }
    FoldKeeps(Stepper(n, LineBuffered), s => LineInv(n, pending, s), Init(n, pending), acts);
  }

  lemma FinishedLineOutput(n: nat, pending: seq<nat>, s: State)
    requires LineInv(n, pending, s) && Finished(s)
    ensures LinearExtension(n, s.printed) && s.out == Expanded(pending, s.printed)
  {
    forall t: nat | t <= 2 * n ensures t in s.printed {
      assert s.pcs[t / 2] == Dead;
      if t % 2 == 0 { assert t == 2 * (t / 2); } else { assert t == 2 * (t / 2) + 1; }
    }
  }

  // Completeness: first fork the whole chain, then let the owners of the tokens
  // move in the order of the wanted output.

  /** The first `k` processes have forked. */
  ghost predicate Grown(n: nat, pending: seq<nat>, s: State, k: nat) {
    && |s.pcs| == |s.bufs| == n + 1 && k <= n && s.out == s.printed == []
    && (forall i :: 0 <= i <= n ==> s.bufs[i] == if i <= k then pending else [])
    && (forall i :: 0 <= i <= n ==> s.pcs[i] == if i < k then First else if i == k then Start(n, k) else Unborn)
  }

  lemma {:induction false} Grow(n: nat, pending: seq<nat>, k: nat) returns (acts: seq<nat>)
    requires k <= n
    ensures Grown(n, pending, Run(n, LineBuffered, pending, acts), k)
  {
    if k == 0 {
      acts := [];
    } else {
      acts := Grow(n, pending, k - 1);
      var s := Run(n, LineBuffered, pending, acts);
      assert Enabled(s, k - 1) && s.pcs[k - 1] == Fork;
      var step, i: nat := Stepper(n, LineBuffered), k - 1;
      assert Grown(n, pending, step(s, i), k);
      FoldSnoc(step, Init(n, pending), acts, i);
      acts := acts + [i];
    }
  }

  /** Where process `i` stands when exactly the tokens in `w` are printed. */
  ghost function Stand(n: nat, w: seq<nat>, i: nat): Pc {
    if LastToken(n, i) in w then Dead else if 2 * i in w then Wait else First
  }

  ghost predicate Printing(n: nat, pending: seq<nat>, s: State, w: seq<nat>) {
    && |s.pcs| == |s.bufs| == n + 1 && s.printed == w && s.out == Expanded(pending, w)
    && (forall i :: 0 <= i <= n ==>
          s.pcs[i] == Stand(n, w, i) && s.bufs[i] == if s.pcs[i] == First then pending else [])
  }

  /** `token` can be printed next. */
  ghost predicate Ready(n: nat, w: seq<nat>, token: nat) {
    var i := token / 2;
    if token == 2 * i then 2 * i + 1 !in w else 2 * i in w && LastToken(n, i + 1) in w
  }

  lemma PairInOrder(n: nat, w: seq<nat>, k: nat, j: nat, i: nat)
    requires LinearExtension(n, w) && k < |w| && j < |w| && w[k] == 2 * i && w[j] == 2 * i + 1
    ensures k < j
  {
    assert 2 * i in w[..j];
    var q :| 0 <= q < j && w[..j][q] == 2 * i;
    assert w[q] == w[k];
  }

  lemma NextIsReady(n: nat, w: seq<nat>, k: nat)
    requires LinearExtension(n, w) && k < |w|
    ensures w[k] !in w[..k] && w[k] <= 2 * n && Ready(n, w[..k], w[k])
  {
    assert w[k] in w;
    var i := w[k] / 2;
    if w[k] == 2 * i {
      forall j | 0 <= j < |w| && w[j] == 2 * i + 1 ensures k < j {
        PairInOrder(n, w, k, j, i);
      }
    } else {
      assert w[k] == 2 * i + 1;
    }
  }

  lemma StandAfter(n: nat, w: seq<nat>, token: nat, k: nat)
    requires token !in w && token <= 2 * n && k <= n
    requires Ready(n, w, token)
    ensures Stand(n, w + [token], k) ==
      if k != token / 2 then Stand(n, w, k) else if token == LastToken(n, k) then Dead else Wait
  {
    assert forall t: nat :: t in w + [token] <==> t in w || t == token;
    assert token == 2 * (token / 2) || token == 2 * (token / 2) + 1;
  }

  /** The moves with which the owner of `token` prints it, and exits after its
      last one. */
  lemma PrintToken(n: nat, s: State, token: nat) returns (acts: seq<nat>)
    requires |s.pcs| == |s.bufs| == n + 1 && token <= 2 * n
    requires token % 2 == 0 ==> s.pcs[token / 2] == First
    requires token % 2 == 1 ==> s.pcs[token / 2] == Wait && s.pcs[token / 2 + 1] == Dead
    ensures var i := token / 2;
      Fold(Stepper(n, LineBuffered), s, acts)
      == State(s.pcs[i := if token == LastToken(n, i) then Dead else Wait], s.bufs[i := []],
               s.printed + [token], s.out + s.bufs[i] + [token])
  {
    var i: nat := token / 2;
    var step := Stepper(n, LineBuffered);
    var s1 := step(s, i);
    var s2 := step(s1, i);
    var bufs, printed, out := s.bufs[i := []], s.printed + [token], s.out + s.bufs[i] + [token];
    if token == 2 * i + 1 {
      assert s1 == s.(pcs := s.pcs[i := Second]);
      assert s2 == State(s.pcs[i := Exit], bufs, printed, out);
      acts := Times(i, 3);
      FoldTimes(step, s, i, 3);
      assert Repeat(step, s, i, 3) == step(s2, i) == State(s.pcs[i := Dead], bufs, printed, out);
    } else if i == n {
      assert s1 == State(s.pcs[i := Exit], bufs, printed, out);
      acts := Times(i, 2);
      FoldTimes(step, s, i, 2);
      assert Repeat(step, s, i, 2) == s2 == State(s.pcs[i := Dead], bufs, printed, out);
    } else {
      acts := Times(i, 1);
      FoldTimes(step, s, i, 1);
      assert Repeat(step, s, i, 1) == s1;
    }
  }

  lemma PrintNext(n: nat, pending: seq<nat>, s: State, w: seq<nat>, token: nat) returns (acts: seq<nat>)
    requires Printing(n, pending, s, w) && token !in w && token <= 2 * n && Ready(n, w, token)
    ensures Printing(n, pending, Fold(Stepper(n, LineBuffered), s, acts), w + [token])
  {
    var i := token / 2;
    assert s.pcs[i] == Stand(n, w, i);
    if token % 2 == 1 { assert s.pcs[i + 1] == Stand(n, w, i + 1); }
    acts := PrintToken(n, s, token);
    StandsAfter(n, pending, s, w, token, Fold(Stepper(n, LineBuffered), s, acts));
  }

  lemma StandsAfter(n: nat, pending: seq<nat>, s: State, w: seq<nat>, token: nat, t: State)
    requires Printing(n, pending, s, w) && token !in w && token <= 2 * n && Ready(n, w, token)
    requires var i := token / 2;
      t == State(s.pcs[i := if token == LastToken(n, i) then Dead else Wait], s.bufs[i := []],
                 s.printed + [token], s.out + s.bufs[i] + [token])
    ensures Printing(n, pending, t, w + [token])
  {
    var i := token / 2;
    assert s.pcs[i] == Stand(n, w, i);
    if token == 2 * i {
      ExpandedFirst(pending, w, i);
    } else {
      ExpandedSecond(pending, w, i);
      assert s.out + s.bufs[i] == s.out;
    }
    forall k | 0 <= k <= n
      ensures t.pcs[k] == Stand(n, w + [token], k) && t.bufs[k] == if t.pcs[k] == First then pending else []
    {
      StandAfter(n, w, token, k);
      assert s.pcs[k] == Stand(n, w, k);
    }
  }

  lemma PrintKth(n: nat, pending: seq<nat>, w: seq<nat>, k: nat, s: State) returns (acts: seq<nat>)
    requires LinearExtension(n, w) && k < |w| && Printing(n, pending, s, w[..k])
    ensures Printing(n, pending, Fold(Stepper(n, LineBuffered), s, acts), w[..k + 1])
  {
    NextIsReady(n, w, k);
    acts := PrintNext(n, pending, s, w[..k], w[k]);
    assert w[..k + 1] == w[..k] + [w[k]];
  }

  lemma {:induction false} PrintAll(n: nat, pending: seq<nat>, w: seq<nat>, k: nat) returns (acts: seq<nat>)
    requires LinearExtension(n, w) && k <= |w|
    ensures Printing(n, pending, Run(n, LineBuffered, pending, acts), w[..k])
  {
    if k == 0 {
      acts := Grow(n, pending, n);
    } else {
      acts := PrintAll(n, pending, w, k - 1);
      var more := PrintKth(n, pending, w, k - 1, Run(n, LineBuffered, pending, acts));
      FoldSplit(Stepper(n, LineBuffered), Init(n, pending), acts, more);
      acts := acts + more;
    }
  }

  /** The outputs of the line-buffered chain, exactly: the pending text comes out
      before the first token of each process. */
  lemma LinesWithPendingExactly(n: nat, pending: seq<nat>, w: seq<nat>)
    ensures Outputs(n, LineBuffered, pending, w) <==> exists v :: LinearExtension(n, v) && w == Expanded(pending, v)
  {
    if Outputs(n, LineBuffered, pending, w) {
      var acts :| Finished(Run(n, LineBuffered, pending, acts)) && Run(n, LineBuffered, pending, acts).out == w;
      RunKeepsLineInv(n, pending, acts);
      FinishedLineOutput(n, pending, Run(n, LineBuffered, pending, acts));
    }
    if v :| LinearExtension(n, v) && w == Expanded(pending, v) {
      var acts := PrintAll(n, pending, v, |v|);
      assert v[..|v|] == v;
      assert Finished(Run(n, LineBuffered, pending, acts));
    }
  }

  /** With nothing pending: exactly the linear extensions. */
  lemma LineOutputsExactly(n: nat, w: seq<nat>)
    ensures Outputs(n, LineBuffered, [], w) <==> LinearExtension(n, w)
  {
    LinesWithPendingExactly(n, [], w);
    forall v ensures Expanded([], v) == v { ExpandedNothing(v); }
  }

  /** The program has depth 2.  Fully buffered it can only write 4 2 3 0 1. */
  lemma DepthTwoFullyBuffered()
    ensures Tail(2, [], 0) == [4, 2, 3, 0, 1]
  {
    assert Tail(2, [], 2) == [4];
    assert Tail(2, [], 1) == [4] + [2, 3];
  }

  /** Line buffered it may write 0 2 4 3 1 ... */
  lemma DepthTwoTopDown()
    ensures LinearExtension(2, [0, 2, 4, 3, 1])
  {
    var w: seq<nat> := [0, 2, 4, 3, 1];
    forall j, i: nat | 0 <= j < |w| && w[j] == 2 * i + 1
      ensures 2 * i in w[..j] && LastToken(2, i + 1) in w[..j]
    {
      assert j == 3 || j == 4;
      assert w[..3] == [0, 2, 4] && w[..4] == [0, 2, 4, 3];
    }
  }

  /** ... but that is not its only output. */
  lemma DepthTwoInterleaved()
    ensures LinearExtension(2, [2, 4, 3, 0, 1])
  {
    var w: seq<nat> := [2, 4, 3, 0, 1];
    forall j, i: nat | 0 <= j < |w| && w[j] == 2 * i + 1
      ensures 2 * i in w[..j] && LastToken(2, i + 1) in w[..j]
    {
      assert j == 2 || j == 4;
      assert w[..2] == [2, 4] && w[..4] == [2, 4, 3, 0];
    }
  }
}
