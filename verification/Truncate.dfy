/** `mytruncate`: setting a file's length by writing zero bytes one at a time. */
module Truncate {

  newtype byte = x: int | 0 <= x < 256

  newtype int32 = x: int | -0x8000_0000 <= x <= 0x7fff_ffff

  const INT_MAX := 0x7fff_ffff

  // ---------------------------------------------------------------------------
  // Files as values
  // ---------------------------------------------------------------------------

  function Zeros(n: nat): (z: seq<byte>)
    ensures |z| == n && forall i :: 0 <= i < n ==> z[i] == 0
  {
    seq(n, (i: nat) => 0)
  }

  /** The file seen as an infinite stream padded with zeros. */
  function At(data: seq<byte>, i: nat): byte { if i < |data| then data[i] else 0 }

  /** Writing one byte; a gap before it reads as zeros. */
  function Written(data: seq<byte>, pos: nat, b: byte): seq<byte> {
    if pos < |data| then data[pos := b] else data + Zeros(pos - |data|) + [b]
  }

  /** `k` zero bytes written one after the other from `start`. */
  function ZeroRun(data: seq<byte>, start: nat, k: nat): seq<byte> {
    if k == 0 then data else Written(ZeroRun(data, start, k - 1), start + k - 1, 0)
  }

  lemma {:induction false} ZeroRunShape(data: seq<byte>, start: nat, k: nat)
    ensures |ZeroRun(data, start, k)| == if k == 0 || start + k <= |data| then |data| else start + k
    ensures forall i: nat :: At(ZeroRun(data, start, k), i) == if start <= i < start + k then 0 else At(data, i)
  {
    if k > 0 {
      ZeroRunShape(data, start, k - 1);
      var before := ZeroRun(data, start, k - 1);
      forall i: nat
        ensures At(ZeroRun(data, start, k), i) == if i == start + k - 1 then 0 else At(before, i)
      {
      }
    }
  }

  /** What `ftruncate` makes of a file (POSIX.1-2017): cut off, or zero-filled. */
  function Resized(data: seq<byte>, length: nat): seq<byte> {
    if length <= |data| then data[..length] else data + Zeros(length - |data|)
  }

  // ---------------------------------------------------------------------------
  // What the loops write
  // ---------------------------------------------------------------------------

  /** Where the writes start: one byte past the end when growing. */
  function Start(size: nat, offset: nat): nat { if size < offset then size + 1 else offset }

  /** How many bytes are written. */
  function Needed(size: nat, offset: nat): nat {
    if size == offset then 0 else if size < offset then offset - size else size - offset + 1
  }

  /** The file after the first `k` of those writes. */
  function Partly(data: seq<byte>, offset: nat, k: nat): seq<byte> {
    ZeroRun(data, Start(|data|, offset), k)
  }

  /** The file after all of them. */
  function Truncated(data: seq<byte>, offset: nat): seq<byte> {
    Partly(data, offset, Needed(|data|, offset))
  }

  /** Growing takes one write for each missing byte, and each write that succeeds
      leaves the file one byte longer than the last, after a gap of one byte;
      shrinking takes one write more than there are bytes to go, and never changes
      the length before the last of them. */
  lemma WritesInNumbers(data: seq<byte>, offset: nat, k: nat)
    ensures |data| < offset ==> Needed(|data|, offset) == offset - |data|
    ensures |data| > offset ==> Needed(|data|, offset) == |data| - offset + 1
    ensures |data| < offset && k > 0 ==> |Partly(data, offset, k)| == |data| + 1 + k
    ensures |data| < offset && k > 0 ==> forall i: nat :: |data| <= i ==> At(Partly(data, offset, k), i) == 0
    ensures |data| >= offset && k <= |data| - offset ==> |Partly(data, offset, k)| == |data|
    ensures Partly(data, offset, 0) == data
  {
    ZeroRunShape(data, Start(|data|, offset), k);
  }

  /** As a zero-padded stream a successful call leaves what `ftruncate` leaves. */
  lemma StreamLikeFtruncate(data: seq<byte>, offset: nat, i: nat)
    ensures At(Truncated(data, offset), i) == At(Resized(data, offset), i)
  {
    ZeroRunShape(data, Start(|data|, offset), Needed(|data|, offset));
  }

  /** The length it leaves is one more than the larger of the old length and the
      offset, unless the two were equal. */
  lemma LengthLeft(data: seq<byte>, offset: nat)
    ensures |Truncated(data, offset)|
         == if |data| == offset then offset else if |data| < offset then offset + 1 else |data| + 1
  {
    ZeroRunShape(data, Start(|data|, offset), Needed(|data|, offset));
  }

  /** So the file itself is what `ftruncate` leaves exactly when nothing had to be
      done. */
  lemma ExactOnlyWhenUnchanged(data: seq<byte>, offset: nat)
    ensures Truncated(data, offset) == Resized(data, offset) <==> |data| == offset
  {
    LengthLeft(data, offset);
  }

  /** After a failed write the kept part is intact, and every other byte is what
      it was or zero. */
  lemma FailureKeepsPrefix(data: seq<byte>, offset: nat, k: nat, i: nat)
    requires k <= Needed(|data|, offset)
    ensures i < |data| && i < offset ==> At(Partly(data, offset, k), i) == data[i]
    ensures At(Partly(data, offset, k), i) == At(data, i) || At(Partly(data, offset, k), i) == 0
  {
    ZeroRunShape(data, Start(|data|, offset), k);
  }

  /** The file after `k` successful calls with the same offset. */
  function AfterCalls(data: seq<byte>, offset: nat, k: nat): seq<byte> {
    if k == 0 then data else Truncated(AfterCalls(data, offset, k - 1), offset)
  }

  /** Every further call makes the file one byte longer, for ever; only a file
      that already has the length stays. */
  lemma {:induction false} LengthAfterCalls(data: seq<byte>, offset: nat, k: nat)
    ensures var max := if |data| < offset then offset else |data|;
      |AfterCalls(data, offset, k)| == if |data| == offset || k == 0 then |data| else max + k
    ensures forall i: nat :: k > 0 ==> At(AfterCalls(data, offset, k), i) == At(Resized(data, offset), i)
  {
    if k > 0 {
      var before := AfterCalls(data, offset, k - 1);
      LengthAfterCalls(data, offset, k - 1);
      LengthLeft(before, offset);
      forall i: nat ensures At(AfterCalls(data, offset, k), i) == At(Resized(data, offset), i) {
        StreamLikeFtruncate(before, offset, i);
      }
    }
  }

  // ---------------------------------------------------------------------------
  // The program
  // ---------------------------------------------------------------------------

  /** An open file: contents, offset, and how many more positionings and
      single-byte writes will succeed. */
  class File {
    var data: seq<byte>
    var pos: nat
    var seeks: nat
    var room: nat

    constructor (data: seq<byte>, seeks: nat, room: nat)
      ensures this.data == data && this.seeks == seeks && this.room == room
    {
      this.data, this.seeks, this.room, this.pos := data, seeks, room, 0;
    }

    /** `lseek`, to an absolute position. */
    method Seek(target: int) returns (at: int)
      modifies this`pos, this`seeks
      ensures at == if old(seeks) > 0 && target >= 0 then target else -1
      ensures at >= 0 ==> pos == at && seeks == old(seeks) - 1
      ensures at == -1 ==> pos == old(pos)
    {
      if seeks == 0 || target < 0 { return -1; }
      pos, seeks, at := target, seeks - 1, target;
    }

    /** `write(fd, &b, 1)` */
    method WriteByte(b: byte) returns (n: int)
      modifies this`data, this`pos, this`room
      ensures n == if old(room) > 0 then 1 else -1
      ensures n == 1 ==> data == Written(old(data), old(pos), b) && pos == old(pos) + 1 && room == old(room) - 1
      ensures n == -1 ==> data == old(data) && pos == old(pos) && room == 0
    {
      if room == 0 { return -1; }
      data, pos, room, n := Written(data, pos, b), pos + 1, room - 1, 1;
    }

    /** The program's function, with its 32-bit loop counters.  Sizes are below
        INT_MAX; it returns 0 for success and 1 for failure. */
    method Truncate(offset: int32) returns (r: int32)
      requires |data| < INT_MAX
      modifies this`data, this`pos, this`seeks, this`room
      ensures r == 0 || r == 1
      ensures r == 0 <==>
        || (|old(data)| == offset as int && old(seeks) >= 1)
        || (offset >= 0 && old(seeks) >= 2 && Needed(|old(data)|, offset as int) <= old(room))
      ensures r == 0 ==> data == Truncated(old(data), offset as int)
      ensures r == 1 && (old(seeks) < 2 || offset < 0) ==> data == old(data)
      ensures r == 0 && |old(data)| <= offset as int ==> old(room) - room == offset as int - |old(data)|
      ensures r == 0 && |old(data)| > offset as int ==> old(room) - room == |old(data)| - offset as int + 1
      ensures r == 1 && old(seeks) >= 2 && offset >= 0 ==>
        && room == 0
        && |data| == |old(data)| + (if |old(data)| < offset as int && old(room) > 0 then 1 + old(room) else 0)
      ensures r == 1 && old(seeks) >= 2 && offset >= 0 ==>
        old(room) < Needed(|old(data)|, offset as int) && data == Partly(old(data), offset as int, old(room))
    {
      ghost var before, room0 := data, room;
      var end := Seek(|data|);
      if end == -1 { return 1; }
      var size := end as int32;
      if size == offset { return 0; }
      if size < offset {
        var at := Seek(|data| + 1);
        if at == -1 { return 1; }
        var i := offset - size;
        ghost var k := 0;
        while i > 0
          invariant i >= 0 && k + i as int == Needed(|before|, offset as int)
          invariant room + k == room0
          invariant pos == Start(|before|, offset as int) + k && data == Partly(before, offset as int, k)
        {
          var n := WriteByte(0);
          if n != 1 {
            WritesInNumbers(before, offset as int, k);
            return 1;
          }
          i, k := i - 1, k + 1;
        }
        return 0;
      } else {
        var at := Seek(offset as int);
        if at == -1 { return 1; }
        var i := at as int32;
        ghost var k := 0;
        while i <= size
          invariant offset <= i <= size + 1 && k == (i - offset) as int
          invariant room + k == room0
          invariant pos == Start(|before|, offset as int) + k && data == Partly(before, offset as int, k)
        {
          var n := WriteByte(0);
          if n != 1 {
            WritesInNumbers(before, offset as int, k);
            return 1;
          }
          i, k := i + 1, k + 1;
        }
        return 0;
      }
    }
  }
}
