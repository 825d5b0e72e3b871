/** Following chains of symbolic links whose targets are bare names in the same
    directory: when a chain ends, and how many links it takes. */
module LinkChain {
  import opened Counting

  type Links = map<string, string>

  /** Where `k` links lead from `x`; the walk stays at a name that is no link. */
  function Walk(links: Links, x: string, k: nat): string {
    if k == 0 then x
    else
      var y := Walk(links, x, k - 1);
      if y in links then links[y] else y
  }

  ghost predicate Ends(links: Links, x: string) { exists k: nat :: Walk(links, x, k) !in links }

  /** No link is met twice. */
  ghost predicate Acyclic(links: Links, x: string) {
    forall i: nat, j: nat :: i < j && Walk(links, x, i) in links && Walk(links, x, j) in links
      ==> Walk(links, x, i) != Walk(links, x, j)
  }

  lemma {:induction false} EndedWalkStays(links: Links, x: string, k: nat, m: nat)
    requires k <= m && Walk(links, x, k) !in links
    ensures Walk(links, x, m) == Walk(links, x, k)
    decreases m
  {
    if k < m { EndedWalkStays(links, x, k, m - 1); }
  }

  lemma {:induction false} WalksMerge(links: Links, x: string, i: nat, j: nat, m: nat)
    requires Walk(links, x, i) == Walk(links, x, j)
    ensures Walk(links, x, i + m) == Walk(links, x, j + m)
    decreases m
  {
    if m > 0 { WalksMerge(links, x, i, j, m - 1); }
  }

  /** A walk that meets a link again keeps meeting it. */
  lemma {:induction false} CycleRepeats(links: Links, x: string, i: nat, period: nat, rounds: nat)
    requires Walk(links, x, i) == Walk(links, x, i + period)
    ensures Walk(links, x, i + rounds * period) == Walk(links, x, i)
    decreases rounds
  {
    if rounds > 0 {
      CycleRepeats(links, x, i, period, rounds - 1);
      WalksMerge(links, x, i, i + period, (rounds - 1) * period);
      assert i + period + (rounds - 1) * period == i + rounds * period;
    }
  }

  /** A walk through links only, without repetition, is no longer than the
      directory has links. */
  lemma WalkIsShort(links: Links, x: string, k: nat)
    requires Acyclic(links, x) && forall i: nat :: i < k ==> Walk(links, x, i) in links
    ensures k <= |links|
  {
    var walk := seq(k, (i: nat) => Walk(links, x, i));
    DistinctSize(walk, links.Keys);
  }

  lemma EndedWalkIsAcyclic(links: Links, x: string)
    requires Ends(links, x)
    ensures Acyclic(links, x)
  {
    var k: nat :| Walk(links, x, k) !in links;
    forall i: nat, j: nat | i < j && Walk(links, x, i) in links && Walk(links, x, j) in links
      ensures Walk(links, x, i) != Walk(links, x, j)
    {
      if Walk(links, x, i) == Walk(links, x, j) {
        CycleRepeats(links, x, i, j - i, k);
        assert k <= i + k * (j - i);
        EndedWalkStays(links, x, k, i + k * (j - i));
      }
    }
  }

  /** A chain ends exactly when it is acyclic. */
  lemma EndsExactly(links: Links, x: string)
    ensures Ends(links, x) <==> Acyclic(links, x)
  {
    if Ends(links, x) {
      EndedWalkIsAcyclic(links, x);
    } else if Acyclic(links, x) {
      WalkIsShort(links, x, |links| + 1);
    }
  }

  ghost function FirstEnd(links: Links, x: string, k: nat): (n: nat)
    requires Walk(links, x, k) !in links
    ensures n <= k && Walk(links, x, n) !in links && forall i: nat :: i < n ==> Walk(links, x, i) in links
  {
    if k > 0 && Walk(links, x, k - 1) !in links then FirstEnd(links, x, k - 1)
    else
      assert forall i: nat :: i < k ==> Walk(links, x, i) in links by {
        forall i: nat | i < k ensures Walk(links, x, i) in links {
          if Walk(links, x, i) !in links { EndedWalkStays(links, x, i, k - 1); }
        }
      }
      k
  }

  /** The number of links in the chain from `x`. */
  ghost function Hops(links: Links, x: string): (n: nat)
    requires Ends(links, x)
    ensures n <= |links| && Walk(links, x, n) !in links && forall i: nat :: i < n ==> Walk(links, x, i) in links
  {
    var k: nat :| Walk(links, x, k) !in links;
    var m := FirstEnd(links, x, k);
    EndsExactly(links, x);
    WalkIsShort(links, x, m);
    m
  }

  /** The name at the end of the chain from `x`. */
  ghost function End(links: Links, x: string): string
    requires Ends(links, x)
  {
    Walk(links, x, Hops(links, x))
  }

  /** There is only one name that is no link and that the chain can lead to. */
  lemma EndIsUnique(links: Links, x: string, k: nat)
    requires Walk(links, x, k) !in links
    ensures Ends(links, x) && Walk(links, x, k) == End(links, x)
  {
    EndedWalkStays(links, x, Hops(links, x), k);
  }
}
