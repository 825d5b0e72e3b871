/** What the two programs over six processes have in common. */
module ProcessGroups {

  datatype Proc = P0 | P1 | P2 | P3 | P4 | P5

  /** The group that process 0 starts in, the pid of process 3, and whether the
      FIFO was left behind by an earlier run. */
  datatype Config = Config(group0: int, pid3: int, fifoThere: bool) {
    predicate Valid() { pid3 > 1 && pid3 != group0 }
  }

  /** The FIFO is empty or holds one whole id: a write of that size is atomic. */
  datatype Pipe = Empty | Holding(id: int)

  /** The group id of a process, 0 if it does not exist. */
  function Pgid(pgid: map<Proc, int>, p: Proc): int { if p in pgid then pgid[p] else 0 }

  function Members(pgid: map<Proc, int>, g: int): set<Proc> { set p | p in pgid && pgid[p] == g }

  /** A forked child starts in its parent's group. */
  function Inherit(pgid: map<Proc, int>, parent: Proc, child: Proc): map<Proc, int> {
    pgid[child := Pgid(pgid, parent)]
  }
}
