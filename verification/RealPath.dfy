/** `myrealpath`: chasing symbolic links by `readlink`, for one path or for every
    entry of the current directory. */
module RealPath {
  import opened Counting
  import opened LinkChain

  const MAX_FILES_IN_DIR := 256

  datatype Option<T> = None | Some(value: T)

  // ---------------------------------------------------------------------------
  // The library functions on path strings
  // ---------------------------------------------------------------------------

  function LastSlash(s: string): (i: int)
    ensures -1 <= i < |s|
    ensures i >= 0 ==> s[i] == '/'
    ensures forall k :: i < k < |s| ==> s[k] != '/'
  {
    if s == "" then -1 else if s[|s| - 1] == '/' then |s| - 1 else LastSlash(s[..|s| - 1])
  }

  function StripSlashes(s: string): (t: string)
    ensures t <= s && (t != "" ==> t[|t| - 1] != '/')
    ensures forall k :: |t| <= k < |s| ==> s[k] == '/'
  {
    if s != "" && s[|s| - 1] == '/' then StripSlashes(s[..|s| - 1]) else s
  }

  /** `dirname` */
  function Dirname(path: string): string {
    var p := StripSlashes(path);
    if path == "" then "."
    else if p == "" then "/"
    else if LastSlash(p) < 0 then "."
    else
      var d := StripSlashes(p[..LastSlash(p)]);
      if d == "" then "/" else d
  }

  /** `basename` */
  function Basename(path: string): string {
    var p := StripSlashes(path);
    if path == "" then "." else if p == "" then "/" else p[LastSlash(p) + 1..]
  }

  /** `strstr(s, t) != NULL` */
  predicate Contains(s: string, t: string) {
    t <= s || (s != "" && Contains(s[1..], t))
  }

  /** It looks for an occurrence anywhere. */
  lemma {:induction false} ContainsExactly(s: string, t: string)
    ensures Contains(s, t) <==> exists a: string, b: string :: s == a + t + b
  {
    if t <= s {
      assert s == "" + t + s[|t|..];
    } else if s != "" {
      ContainsExactly(s[1..], t);
      if a: string, b: string :| s[1..] == a + t + b {
        assert s == ([s[0]] + a) + t + b;
      }
      if a: string, b: string :| s == a + t + b {
        assert a == "" ==> t <= s;
        assert a != "" ==> s[1..] == a[1..] + t + b;
      }
    } else {
      assert forall a: string, b: string :: |a + t + b| >= |t| > 0;
    }
  }

  lemma {:induction false} ContainsDot(s: string)
    ensures Contains(s, ".") <==> '.' in s
  {
    if s != "" {
      ContainsDot(s[1..]);
      assert s == [s[0]] + s[1..];
    }
  }

  predicate Slashes(s: string) { forall i :: 0 <= i < |s| ==> s[i] == '/' }

  predicate Bare(name: string) { name != "" && '/' !in name }

  /** A path with a last name: a directory part, slashes, the name, more slashes. */
  predicate Parts(e: string, sep: string, name: string, tail: string) {
    && Bare(name) && Slashes(sep) && Slashes(tail)
    && (e == "" || (e[|e| - 1] != '/' && sep != ""))
  }

  lemma {:induction false} StripsTo(s: string, t: string)
    requires t <= s && (t != "" ==> t[|t| - 1] != '/') && Slashes(s[|t|..])
    ensures StripSlashes(s) == t
  {
    assert forall k :: |t| <= k < |s| ==> s[k] == s[|t|..][k - |t|];
  }

  lemma LastNameStripped(e: string, sep: string, name: string, tail: string)
    requires Parts(e, sep, name, tail)
    ensures StripSlashes(e + sep + name + tail) == e + sep + name
    ensures LastSlash(e + sep + name) == |e| + |sep| - 1
  {
    var path, p, n := e + sep + name + tail, e + sep + name, |e + sep|;
    assert p[|p| - 1] == name[|name| - 1] && path[|p|..] == tail;
    StripsTo(path, p);
    assert forall k :: n <= k < |p| ==> p[k] == name[k - n];
    assert n > 0 ==> p[n - 1] == sep[|sep| - 1];
  }

  /** What `dirname` and `basename` make of such a path. */
  lemma LastName(e: string, sep: string, name: string, tail: string)
    requires Parts(e, sep, name, tail)
    ensures Dirname(e + sep + name + tail) == if e != "" then e else if sep != "" then "/" else "."
    ensures Basename(e + sep + name + tail) == name
  {
    var p, n := e + sep + name, |e + sep|;
    LastNameStripped(e, sep, name, tail);
    assert p[n..] == name;
    if n > 0 {
      assert p[..n - 1] == e + sep[..|sep| - 1];
      assert (e + sep[..|sep| - 1])[|e|..] == sep[..|sep| - 1];
      StripsTo(e + sep[..|sep| - 1], e);
    }
  }

  /** Every path but the empty one and the root has a last name. */
  lemma SplitPath(path: string) returns (e: string, sep: string, name: string, tail: string)
    requires !Slashes(path)
    ensures Parts(e, sep, name, tail) && path == e + sep + name + tail
  {
    var p := StripSlashes(path);
    tail := path[|p|..];
    var n := LastSlash(p) + 1;
    name := p[n..];
    e := StripSlashes(p[..n]);
    sep := p[|e|..n];
    assert n > 0 ==> p[..n][n - 1] == '/';
  }

  // ---------------------------------------------------------------------------
  // The loop body
  // ---------------------------------------------------------------------------

  /** The next path to read: the loop body for the target just read. */
  function NextPath(path: string, current: string, target: string): string {
    if Contains(target, "..") then
      (if !Contains(Dirname(current), ".") then Dirname(current) + "/" + target else target)
    else
      (if !Contains(Dirname(path), ".") then Dirname(path) + "/" + target else target)
  }

  /** A target with `..` is placed in the directory of the link just read, wherever
      the search started; if that directory has a dot or is not spelled out, the
      target is taken as it is. */
  lemma ParentTarget(start: string, e: string, name: string, target: string)
    requires e != "" && e[|e| - 1] != '/' && Bare(name) && Contains(target, "..")
    ensures NextPath(start, e + "/" + name, target) == if '.' in e then target else e + "/" + target
    ensures NextPath(start, name, target) == target
    ensures NextPath(start, "/" + name, target) == "/" + "/" + target
  {
    NamedDirectory(e, name);
    UnnamedDirectory(name);
  }

  /** Any other target is placed in the directory of the path the search started
      from, wherever it has come to meanwhile. */
  lemma PlainTarget(current: string, e: string, name: string, target: string)
    requires e != "" && e[|e| - 1] != '/' && Bare(name) && !Contains(target, "..")
    ensures NextPath(e + "/" + name, current, target) == if '.' in e then target else e + "/" + target
    ensures NextPath(name, current, target) == target
    ensures NextPath("/" + name, current, target) == "/" + "/" + target
  {
    NamedDirectory(e, name);
    UnnamedDirectory(name);
  }

  lemma NamedDirectory(e: string, name: string)
    requires e != "" && e[|e| - 1] != '/' && Bare(name)
    ensures Dirname(e + "/" + name) == e && (Contains(e, ".") <==> '.' in e)
  {
    LastName(e, "/", name, "");
    assert e + "/" + name + "" == e + "/" + name;
    ContainsDot(e);
  }

  lemma UnnamedDirectory(name: string)
    requires Bare(name)
    ensures Dirname(name) == "." && Contains(".", ".")
    ensures Dirname("/" + name) == "/" && !Contains("/", ".")
  {
    assert Dirname(name) == "." by {
      LastName("", "", name, "");
      assert "" + "" + name + "" == name;
    }
    assert Dirname("/" + name) == "/" by {
      LastName("", "/", name, "");
      assert "" + "/" + name + "" == "/" + name;
    }
    ContainsDot(".");
    ContainsDot("/");
  }

  // ---------------------------------------------------------------------------
  // Agreement with pathname resolution
  // ---------------------------------------------------------------------------

  predicate Absolute(target: string) { target != "" && target[0] == '/' }

  /** What the link `current` with this target stands for (POSIX.1-2017, section
      4.13): an absolute target for itself, a relative one is looked up in the
      directory of the link. */
  function Meant(current: string, target: string): string {
    if Absolute(target) || Dirname(current) == "." then target else Dirname(current) + "/" + target
  }

  /** The directory whose spelling decides what the loop body does. */
  function Consulted(path: string, current: string, target: string): string {
    Dirname(if Contains(target, "..") then current else path)
  }

  /** The guard of the loop body does the right thing: no directory is put in front
      where none is wanted, and else the link's own. */
  predicate BodyAgrees(path: string, current: string, target: string) {
    var dir := Consulted(path, current, target);
    if Absolute(target) || Dirname(current) == "." then '.' in dir
    else '.' !in dir && dir == Dirname(current)
  }

  /** When the loop body computes the path that the link stands for, exactly. */
  lemma NextPathExactly(path: string, current: string, target: string)
    ensures NextPath(path, current, target) == Meant(current, target) <==> BodyAgrees(path, current, target)
  {
    var dir, here := Consulted(path, current, target), Dirname(current);
    ContainsDot(dir);
    assert |dir + "/" + target| == |dir| + 1 + |target| && |here + "/" + target| == |here| + 1 + |target|;
    if dir + "/" + target == here + "/" + target {
      assert dir == (dir + "/" + target)[..|dir|] && here == (here + "/" + target)[..|here|];
    }
  }

  /** Three ways in which it does not.  A directory with a dot is dropped: */
  lemma DottedDirectoryFails(e: string, name: string, target: string)
    requires e != "" && e[|e| - 1] != '/' && Bare(name) && '.' in e && e != "."
    requires !Absolute(target) && !Contains(target, "..")
    ensures NextPath(e + "/" + name, e + "/" + name, target) == target
    ensures Meant(e + "/" + name, target) == e + "/" + target
  {
    PlainTarget(e + "/" + name, e, name, target);
    NamedDirectory(e, name);
  }

  /** a chain that has left the directory of its first link is looked up there, */
  lemma LeavingDirectoryFails(e: string, name: string, d: string, other: string, target: string)
    requires e != "" && e[|e| - 1] != '/' && Bare(name) && '.' !in e
    requires d != "" && d[|d| - 1] != '/' && Bare(other) && d != "."
    requires !Absolute(target) && !Contains(target, "..")
    ensures NextPath(e + "/" + name, d + "/" + other, target) == e + "/" + target
    ensures Meant(d + "/" + other, target) == d + "/" + target
  {
    PlainTarget(d + "/" + other, e, name, target);
    NamedDirectory(d, other);
  }

  /** and an absolute target gets a directory in front. */
  lemma AbsoluteTargetFails(e: string, name: string, target: string)
    requires e != "" && e[|e| - 1] != '/' && Bare(name) && '.' !in e
    requires Absolute(target) && !Contains(target, "..")
    ensures NextPath(e + "/" + name, e + "/" + name, target) == e + "/" + target
    ensures Meant(e + "/" + name, target) == target
  {
    PlainTarget(e + "/" + name, e, name, target);
  }

  /** For example, `.d/a -> b`, `d/a -> s/b` with `d/s/b -> c`, and `d/a -> /b`. */
  lemma NextPathFails()
    ensures NextPath(".d" + "/" + "a", ".d" + "/" + "a", "b") == "b" != Meant(".d" + "/" + "a", "b")
    ensures NextPath("d" + "/" + "a", "d/s" + "/" + "b", "c") != Meant("d/s" + "/" + "b", "c")
    ensures NextPath("d" + "/" + "a", "d" + "/" + "a", "/b") != "/b" == Meant("d" + "/" + "a", "/b")
  {
    NoParent("b");
    NoParent("c");
    NoParent("/b");
    assert ".d"[0] == '.';
    DottedDirectoryFails(".d", "a", "b");
    LeavingDirectoryFails("d", "a", "d/s", "b", "c");
    AbsoluteTargetFails("d", "a", "/b");
    assert |".d" + "/" + "b"| == 4 && |"d" + "/" + "c"| == 3 && |"d/s" + "/" + "c"| == 5 && |"d" + "/" + "/b"| == 4;
  }

  lemma {:induction false} NoParent(target: string)
    requires '.' !in target
    ensures !Contains(target, "..")
  {
    if target != "" {
      NoParent(target[1..]);
      assert target[0] in target;
    }
  }

  // ---------------------------------------------------------------------------
  // The loop, in any file system
  // ---------------------------------------------------------------------------

  /** `readlink(path, buf, PATH_MAX) > 0`; `fs` gives the target of every link, by
      the spelling of its path. */
  predicate IsLink(fs: Links, path: string) { path in fs && fs[path] != "" }

  /** Where each link leads a search that started from `path`. */
  function Hopping(fs: Links, path: string): Links {
    map p | p in fs && IsLink(fs, p) :: NextPath(path, p, fs[p])
  }

  /** The loop variable after `k` turns of the loop (it stays when the loop has
      stopped). */
  function LoopPath(fs: Links, path: string, k: nat): string { Walk(Hopping(fs, path), path, k) }

  ghost predicate Stops(fs: Links, path: string) { Ends(Hopping(fs, path), path) }

  /** The number of turns after which it stops. */
  ghost function Turns(fs: Links, path: string): nat
    requires Stops(fs, path)
  {
    Hops(Hopping(fs, path), path)
  }

  lemma LoopTurn(fs: Links, path: string, k: nat)
    requires Stops(fs, path) && k <= Turns(fs, path) && IsLink(fs, LoopPath(fs, path, k))
    ensures k < Turns(fs, path)
    ensures var p := LoopPath(fs, path, k); LoopPath(fs, path, k + 1) == NextPath(path, p, fs[p])
  {
  }

  lemma LoopEnds(fs: Links, path: string, k: nat)
    requires Stops(fs, path) && k <= Turns(fs, path) && !IsLink(fs, LoopPath(fs, path, k))
    ensures k == Turns(fs, path) <= |fs|
  {
    var chain := Hopping(fs, path);
    assert chain.Keys <= fs.Keys;
    SubsetSize(chain.Keys, fs.Keys);
  }

  /** No link is read twice. */
  ghost predicate ReadsOnce(fs: Links, path: string) {
    forall i: nat, j: nat :: i < j && IsLink(fs, LoopPath(fs, path, i)) && IsLink(fs, LoopPath(fs, path, j))
      ==> LoopPath(fs, path, i) != LoopPath(fs, path, j)
  }

  /** In any file system the loop stops exactly when it reads no path twice. */
  lemma StopsExactly(fs: Links, path: string)
    ensures Stops(fs, path) <==> ReadsOnce(fs, path)
  {
    var chain := Hopping(fs, path);
    EndsExactly(chain, path);
    if ReadsOnce(fs, path) {
      forall i: nat, j: nat | i < j && Walk(chain, path, i) in chain && Walk(chain, path, j) in chain
        ensures Walk(chain, path, i) != Walk(chain, path, j)
      {
        assert LoopPath(fs, path, i) != LoopPath(fs, path, j);
      }
    }
  }

  /** The paths that the chain of links from `path` really leads to. */
  function MeantPath(fs: Links, path: string, k: nat): string {
    if k == 0 then path
    else
      var p := MeantPath(fs, path, k - 1);
      if IsLink(fs, p) then Meant(p, fs[p]) else p
  }

  /** After `k` turns the loop is where the links lead. */
  function OnChain(fs: Links, path: string): nat -> bool {
    (k: nat) => LoopPath(fs, path, k) == MeantPath(fs, path, k)
  }

  /** The loop body is right at the link that the real chain meets after `k` links,
      if there is one. */
  function RightTurn(fs: Links, path: string): nat -> bool {
    (k: nat) =>
      var p := MeantPath(fs, path, k);
      IsLink(fs, p) ==> BodyAgrees(path, p, fs[p])
  }

  lemma LoopStep(fs: Links, path: string, k: nat)
    requires OnChain(fs, path)(k)
    ensures OnChain(fs, path)(k + 1) <==> RightTurn(fs, path)(k)
  {
    var p := MeantPath(fs, path, k);
    if IsLink(fs, p) { NextPathExactly(path, p, fs[p]); }
  }

  /** `holds` holds of every number below `m`. */
  predicate AllBelow(holds: nat -> bool, m: nat) { m == 0 || (AllBelow(holds, m - 1) && holds(m - 1)) }

  lemma {:induction false} Stepwise(on: nat -> bool, right: nat -> bool, m: nat)
    requires on(0) && forall k: nat {:trigger right(k)} :: on(k) ==> (on(k + 1) <==> right(k))
    ensures AllBelow(on, m + 1) <==> AllBelow(right, m)
    decreases m
  {
    if m > 0 {
      Stepwise(on, right, m - 1);
      assert on(m - 1) ==> (on(m) <==> right(m - 1));
    }
  }

  /** The loop is on the real chain for `m` turns exactly when the loop body is
      right at each of the first `m` links. */
  lemma LoopExactly(fs: Links, path: string, m: nat)
    ensures AllBelow(OnChain(fs, path), m + 1) <==> AllBelow(RightTurn(fs, path), m)
  {
    var on, right := OnChain(fs, path), RightTurn(fs, path);
    forall k: nat | on(k) ensures on(k + 1) <==> right(k) { LoopStep(fs, path, k); }
    Stepwise(on, right, m);
  }

  // ---------------------------------------------------------------------------
  // A directory whose links have bare sibling names as targets
  // ---------------------------------------------------------------------------

  /** `dir` is how the paths name the directory: "" for bare names in the current
      directory, or a directory part without a dot. */
  datatype Directory = Directory(dir: string, links: Links) {
    predicate Valid() {
      && (dir == "" || (dir[|dir| - 1] != '/' && '.' !in dir))
      && forall x :: x in links ==> Bare(x) && Bare(links[x])
    }

    function Path(name: string): string { if dir == "" then name else dir + "/" + name }
  }

  /** `fs` has the links of the directory there, and no others. */
  ghost predicate Holds(fs: Links, d: Directory) {
    && (forall x :: Bare(x) ==> (IsLink(fs, d.Path(x)) <==> x in d.links))
    && (forall x :: x in d.links ==> d.Path(x) in fs && fs[d.Path(x)] == d.links[x])
  }

  lemma DirnameOfPath(d: Directory, name: string)
    requires d.Valid() && Bare(name)
    ensures Dirname(d.Path(name)) == if d.dir == "" then "." else d.dir
    ensures Contains(Dirname(d.Path(name)), ".") <==> d.dir == ""
    ensures Basename(d.Path(name)) == name
  {
    LastName(d.dir, if d.dir == "" then "" else "/", name, "");
    assert d.Path(name) == d.dir + (if d.dir == "" then "" else "/") + name + "";
    ContainsDot(Dirname(d.Path(name)));
  }

  /** Both branches of the loop body stay in the directory, as they should. */
  lemma NextPathIsSibling(d: Directory, start: string, current: string, target: string)
    requires d.Valid() && Bare(start) && Bare(current) && Bare(target)
    ensures NextPath(d.Path(start), d.Path(current), target) == d.Path(target)
  {
    DirnameOfPath(d, start);
    DirnameOfPath(d, current);
  }

  lemma SiblingIsMeant(d: Directory, current: string, target: string)
    requires d.Valid() && Bare(current) && Bare(target)
    ensures Meant(d.Path(current), target) == d.Path(target)
  {
    DirnameOfPath(d, current);
    assert target[0] in target;
  }

  lemma {:induction false} WalkIsBare(d: Directory, x: string, k: nat)
    requires d.Valid() && Bare(x)
    ensures Bare(Walk(d.links, x, k))
  {
    if k > 0 { WalkIsBare(d, x, k - 1); }
  }

  lemma {:induction false} LoopFollowsChain(fs: Links, d: Directory, x: string, k: nat)
    requires Holds(fs, d) && d.Valid() && Bare(x)
    ensures LoopPath(fs, d.Path(x), k) == d.Path(Walk(d.links, x, k)) == MeantPath(fs, d.Path(x), k)
    decreases k
  {
    if k > 0 {
      var y := Walk(d.links, x, k - 1);
      WalkIsBare(d, x, k - 1);
      LoopFollowsChain(fs, d, x, k - 1);
      if y in d.links {
        NextPathIsSibling(d, x, y, d.links[y]);
        SiblingIsMeant(d, y, d.links[y]);
      }
    }
  }

  /** There the loop stops exactly when the chain from the name is acyclic, and
      then the result is the name at the end of the chain. */
  lemma DirectoryResolved(fs: Links, d: Directory, x: string)
    requires Holds(fs, d) && d.Valid() && Bare(x)
    ensures Stops(fs, d.Path(x)) <==> Acyclic(d.links, x)
    ensures Stops(fs, d.Path(x)) ==> Ends(d.links, x) && Resolved(fs, d.Path(x)) == End(d.links, x)
  {
    EndsExactly(d.links, x);
    if Stops(fs, d.Path(x)) {
      var k := Hops(Hopping(fs, d.Path(x)), d.Path(x));
      LoopFollowsChain(fs, d, x, k);
      WalkIsBare(d, x, k);
      EndIsUnique(d.links, x, k);
      DirnameOfPath(d, Walk(d.links, x, k));
    }
    if Ends(d.links, x) {
      var k := Hops(d.links, x);
      LoopFollowsChain(fs, d, x, k);
      WalkIsBare(d, x, k);
      EndIsUnique(Hopping(fs, d.Path(x)), d.Path(x), k);
    }
  }

  // ---------------------------------------------------------------------------
  // The program
  // ---------------------------------------------------------------------------

  /** The last name of the path at which the loop stops. */
  ghost function Resolved(fs: Links, path: string): string
    requires Stops(fs, path)
  {
    Basename(LoopPath(fs, path, Turns(fs, path)))
  }

  /** What `readlink` and the loop make of each entry: nothing, unless it is a link. */
  ghost function Results(fs: Links, entries: seq<string>): (r: seq<Option<string>>)
    requires forall n :: 0 <= n < |entries| ==> Stops(fs, entries[n])
    ensures |r| == |entries|
  {
    seq(|entries|, n requires 0 <= n < |entries| =>
      if IsLink(fs, entries[n]) then Some(Resolved(fs, entries[n])) else None)
  }

  lemma ResultAt(fs: Links, entries: seq<string>, n: nat)
    requires (forall n :: 0 <= n < |entries| ==> Stops(fs, entries[n])) && n < |entries|
    ensures Results(fs, entries)[n] == if IsLink(fs, entries[n]) then Some(Resolved(fs, entries[n])) else None
  {
  }

  function SomePositions(results: seq<Option<string>>): set<nat> {
    set n: nat | n < |results| && results[n].Some?
  }

  /** `ks` lists, in order, the positions below `n` that have a result. */
  ghost predicate Lists(results: seq<Option<string>>, n: nat, ks: seq<nat>)
    requires n <= |results|
  {
    && (forall i, j :: 0 <= i < j < |ks| ==> ks[i] < ks[j])
    && (forall k: nat :: k in ks <==> k < n && results[k].Some?)
  }

  lemma ListsNext(results: seq<Option<string>>, n: nat, ks: seq<nat>)
    requires n < |results| && Lists(results, n, ks)
    ensures Lists(results, n + 1, if results[n].Some? then ks + [n] else ks)
  {
    forall i | 0 <= i < |ks| ensures ks[i] < n { assert ks[i] in ks; }
  }

  lemma ListsSize(results: seq<Option<string>>, n: nat, ks: seq<nat>)
    requires n <= |results| && Lists(results, n, ks)
    ensures |ks| <= |SomePositions(results)|
    ensures n == |results| ==> |ks| == |SomePositions(results)|
  {
    forall i | 0 <= i < |ks| ensures ks[i] in SomePositions(results) { assert ks[i] in ks; }
    DistinctSize(ks, SomePositions(results));
    if n == |results| { CoverSize(ks, SomePositions(results)); }
  }

  /** The cells from `pos` on hold the results at positions `ks`; those before and
      after are as in `before`. */
  ghost predicate Stored(
    results: seq<Option<string>>, pos: nat, ks: seq<nat>, before: seq<Option<string>>, cells: seq<Option<string>>) {
    && pos + |ks| <= |cells| == |before|
    && (forall i :: 0 <= i < |ks| ==> ks[i] < |results| && cells[pos + i] == results[ks[i]])
    && (forall i :: 0 <= i < pos || pos + |ks| <= i < |cells| ==> cells[i] == before[i])
  }

  lemma StoredMore(results: seq<Option<string>>, n: nat, pos: nat, ks: seq<nat>,
                   before: seq<Option<string>>, cells: seq<Option<string>>)
    requires n < |results| && Stored(results, pos, ks, before, cells) && pos + |ks| < |cells|
    ensures Stored(results, pos, ks + [n], before, cells[pos + |ks| := results[n]])
  {
    var more, after := ks + [n], cells[pos + |ks| := results[n]];
    forall i | 0 <= i < |more| ensures more[i] < |results| && after[pos + i] == results[more[i]] {
      if i < |ks| { assert more[i] == ks[i] && after[pos + i] == cells[pos + i]; }
    }
  }

  lemma StoredNext(results: seq<Option<string>>, n: nat, pos: nat, ks: seq<nat>,
                   before: seq<Option<string>>, cells: seq<Option<string>>)
    requires n < |results| && Lists(results, n, ks) && Stored(results, pos, ks, before, cells)
    requires pos + |SomePositions(results)| <= |cells|
    ensures Lists(results, n + 1, if results[n].Some? then ks + [n] else ks)
    ensures results[n].Some? ==>
      pos + |ks| < |cells| && Stored(results, pos, ks + [n], before, cells[pos + |ks| := results[n]])
  {
    ListsNext(results, n, ks);
    if results[n].Some? {
      ListsSize(results, n + 1, ks + [n]);
      StoredMore(results, n, pos, ks, before, cells);
    }
  }

  /** The globals of the program. */
  class Resolver {
    const strs: array<Option<string>>
    var pos: nat

    constructor ()
      ensures fresh(strs) && strs.Length == MAX_FILES_IN_DIR && pos == 0
      ensures forall i :: 0 <= i < strs.Length ==> strs[i] == None
    {
      strs := new Option<string>[MAX_FILES_IN_DIR](_ => None);
      pos := 0;
    }

    /** The link loop: `buf` is the target buffer, holding whatever it held
        before; `hops` counts the successful reads. */
    method Follow(fs: Links, path: string, buf: string) returns (last: string, hops: nat)
      requires Stops(fs, path)
      ensures hops == Turns(fs, path) <= |fs|
      ensures last == if hops > 0 then LoopPath(fs, path, hops) else buf
      ensures hops > 0 <==> IsLink(fs, path)
    {
      var current := path;
      last, hops := buf, 0;
      while IsLink(fs, current)
        invariant hops <= Turns(fs, path) && current == LoopPath(fs, path, hops)
        invariant hops > 0 ==> last == current && IsLink(fs, path)
        invariant hops == 0 ==> last == buf
        decreases Turns(fs, path) - hops
      {
        LoopTurn(fs, path, hops);
        last := Prefixed(path, current, fs[current]);
        current, hops := last, hops + 1;
      }
      LoopEnds(fs, path, hops);
    }

    /** The loop body: the target just read, with a directory part in front unless
        that contains a dot. */
    method Prefixed(path: string, current: string, target: string) returns (next: string)
      ensures next == NextPath(path, current, target)
    {
      next := target;
      if Contains(target, "..") {
        if !Contains(Dirname(current), ".") { next := Dirname(current) + "/" + next; }
      } else {
        if !Contains(Dirname(path), ".") { next := Dirname(path) + "/" + next; }
      }
    }

    /** `myrealpath(path)`; `junk` is what the fresh target buffer holds, which is
        all that is left to return if the path is no link. */
    method ResolvePath(fs: Links, path: string, junk: string) returns (r: Option<string>)
      requires Stops(fs, path) && strs.Length == MAX_FILES_IN_DIR
      modifies this, strs
      ensures r == Some(if IsLink(fs, path) then Resolved(fs, path) else Basename(junk)) && pos == 1
      ensures strs[..] == old(strs[..])[0 := r]
    {
      var last, hops := Follow(fs, path, junk);
      strs[0] := Some(Basename(last));
      pos := 1;
      r := strs[0];
    }

    /** `myrealpath(NULL)`: the scan over the entries of the current directory in
        the order `readdir` gives them.  It appends to `strs` what the links among
        the entries resolve to, and nothing else; `ks` are their positions. */
    method ScanDirectory(fs: Links, entries: seq<string>, junk: string)
      returns (r: Option<string>, ghost ks: seq<nat>)
      requires strs.Length == MAX_FILES_IN_DIR
      requires forall n :: 0 <= n < |entries| ==> Stops(fs, entries[n])
      requires pos + |SomePositions(Results(fs, entries))| <= MAX_FILES_IN_DIR
      modifies this`pos, strs
      ensures Lists(Results(fs, entries), |entries|, ks)
      ensures Stored(Results(fs, entries), old(pos), ks, old(strs[..]), strs[..]) && pos == old(pos) + |ks|
      ensures r == strs[0]
    {
      var buf := junk;
      ghost var pos0, before, results := pos, strs[..], Results(fs, entries);
      ks := [];
      for n := 0 to |entries|
        invariant Lists(results, n, ks)
        invariant Stored(results, pos0, ks, before, strs[..]) && pos == pos0 + |ks|
      {
        StoredNext(results, n, pos0, ks, before, strs[..]);
        buf := ScanEntry(fs, entries, n, buf);
        ks := if results[n].Some? then ks + [n] else ks;
      }
      r := strs[0];
    }

    /** One turn of the scan. */
    method ScanEntry(fs: Links, entries: seq<string>, n: nat, buf: string) returns (last: string)
      requires n < |entries| && forall n :: 0 <= n < |entries| ==> Stops(fs, entries[n])
      requires Results(fs, entries)[n].Some? ==> pos < strs.Length
      modifies this`pos, strs
      ensures var result := Results(fs, entries)[n];
        && pos == old(pos) + (if result.Some? then 1 else 0)
        && strs[..] == if result.Some? then old(strs[..])[old(pos) := result] else old(strs[..])
    {
      ResultAt(fs, entries, n);
      var resolved;
      last, resolved := ResolveEntry(fs, entries[n], buf);
      if resolved.Some? {
        strs[pos] := resolved;
        pos := pos + 1;
      }
    }

    /** The inner loop of the scan: `buf` still holds what an earlier entry left
        in it, which is not used unless this entry is a link. */
    method ResolveEntry(fs: Links, name: string, buf: string) returns (last: string, r: Option<string>)
      requires Stops(fs, name)
      ensures r == if IsLink(fs, name) then Some(Resolved(fs, name)) else None
    {
      var hops;
      last, hops := Follow(fs, name, buf);
      r := if hops > 0 then Some(Basename(last)) else None;
    }
  }
}
