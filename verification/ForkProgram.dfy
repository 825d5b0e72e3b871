/** The fork chain as it runs: each step of a process changes its own program
    counter and stdio buffer in place, a fork also those of the new child. */
module ForkProgram {
  import opened ForkOutput

  class Processes {
    const n: nat
    const mode: Mode
    const pcs: array<Pc>
    const bufs: array<seq<nat>>
    var out: seq<nat>
    ghost var printed: seq<nat>

    ghost function Snapshot(): State
      reads this, pcs, bufs
    {
      State(pcs[..], bufs[..], printed, out)
    }

    constructor (n: nat, mode: Mode, pending: seq<nat>)
      ensures this.n == n && this.mode == mode && fresh(pcs) && fresh(bufs)
      ensures Snapshot() == Init(n, pending)
    {
      this.n, this.mode, out, printed := n, mode, [], [];
      pcs := new Pc[n + 1](i => if i == 0 then Start(n, 0) else Unborn);
      bufs := new seq<nat>[n + 1](i => if i == 0 then pending else []);
    }

    /** `print(x)` in process `i`. */
    method Print(i: nat, x: nat)
      requires i < bufs.Length
      modifies this`out, this`printed, bufs
      ensures printed == old(printed) + [x]
      ensures mode == LineBuffered ==> out == old(out) + old(bufs[i]) + [x] && bufs[..] == old(bufs[..])[i := []]
      ensures mode == FullyBuffered ==> out == old(out) && bufs[..] == old(bufs[..])[i := old(bufs[i]) + [x]]
    {
      bufs[i], printed := bufs[i] + [x], printed + [x];
      if mode == LineBuffered {
        out, bufs[i] := out + bufs[i], [];
      }
    }

    /** The next instruction of process `i`. */
    method Step(i: nat)
      requires Chain(n, Snapshot()) && Enabled(Snapshot(), i)
      modifies this`out, this`printed, pcs, bufs
      ensures Snapshot() == ForkOutput.Step(n, mode, old(Snapshot()), i)
    {
      match pcs[i]
      case Fork =>
        pcs[i], pcs[i + 1] := First, Start(n, i + 1);
        bufs[i + 1] := bufs[i];
      case First =>
        Print(i, 2 * i);
        pcs[i] := if i < n then Wait else Exit;
      case Wait =>
        pcs[i] := Second;
      case Second =>
        Print(i, 2 * i + 1);
        pcs[i] := Exit;
      case Exit =>
        out, bufs[i], pcs[i] := out + bufs[i], [], Dead;
    }

    /** Lets any process that can move do so until all are dead. */
    method Execute(ghost pending: seq<nat>)
      requires Snapshot() == Init(n, pending)
      modifies this`out, this`printed, pcs, bufs
      ensures Finished(Snapshot())
      ensures mode == FullyBuffered ==> out == Tail(n, pending, 0)
      ensures mode == LineBuffered ==> LinearExtension(n, printed) && out == Expanded(pending, printed)
    {
      InitInvariants(pending);
      var done := false;
      while !done
        invariant Chain(n, Snapshot()) && ModeInv(pending, Snapshot())
        invariant done ==> Quiescent(Snapshot())
        decreases !done, Rank(pcs[..])
      {
        ghost var s := Snapshot();
        if i: nat :| i <= n && CanMove(i) {
          KeepsAll(pending, s, i);
          Step(i);
        } else {
          assert forall i: nat :: i <= n ==> (CanMove(i) <==> Enabled(s, i));
          done := true;
        }
      }
      Settled(n, Snapshot());
      if mode == LineBuffered { FinishedLineOutput(n, pending, Snapshot()); }
    }

    ghost predicate ModeInv(pending: seq<nat>, s: State) {
      match mode case FullyBuffered => FullInv(n, pending, s) case LineBuffered => LineInv(n, pending, s)
    }

    lemma KeepsAll(pending: seq<nat>, s: State, i: nat)
      requires Chain(n, s) && Enabled(s, i) && ModeInv(pending, s)
      ensures var t := ForkOutput.Step(n, mode, s, i);
        Chain(n, t) && Rank(t.pcs) < Rank(s.pcs) && ModeInv(pending, t)
    {
      StepKeepsChain(n, mode, s, i);
      StepLowersRank(n, mode, s, i);
      if mode == FullyBuffered { StepKeepsFullInv(n, pending, s, i); } else { StepKeepsLineInv(n, pending, s, i); }
    }

    lemma InitInvariants(pending: seq<nat>)
      ensures var s := Init(n, pending); Chain(n, s) && FullInv(n, pending, s) && LineInv(n, pending, s)
    {
      InitChain(n, pending);
      assert Alive(Init(n, pending), n + 1) && Init(n, pending).out == Tail(n, pending, n + 1);
    }

    predicate CanMove(i: nat)
      requires i < pcs.Length
      reads pcs
    {
      && pcs[i] != Unborn && pcs[i] != Dead
      && (pcs[i] == Fork ==> i + 1 < pcs.Length)
      && (pcs[i] == Wait ==> i + 1 < pcs.Length && pcs[i + 1] == Dead)
    }
  }
}
