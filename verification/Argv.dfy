/** The argv blob (src/core/api/arg.c): an offset table and the strings it points at, packed in one
    512-byte buffer, edited in place and read back from the 6502's xstack. */
module Argv {
  import opened Common

  const XSTACK_SIZE := 512

  type Str = seq<u8>

  /** A C string, without its terminator. */
  predicate StrOk(s: Str) { forall k :: 0 <= k < |s| ==> s[k] != 0 }

  predicate ArgsOk(args: seq<Str>) { forall i :: 0 <= i < |args| ==> StrOk(args[i]) }

  // ---------------- the layout ----------------

  /** The bytes of the first i strings, terminators and all. */
  function Start(args: seq<Str>, i: nat): (n: nat)
    requires i <= |args|
    ensures n >= i
  {
    if i == 0 then 0 else Start(args, i - 1) + |args[i - 1]| + 1
  }

  /** Where string i starts; past the last, the size of the whole. */
  function Off(args: seq<Str>, i: nat): (n: nat)
    requires i <= |args|
    ensures n >= 2 * (|args| + 1) + i
  {
    2 * (|args| + 1) + Start(args, i)
  }

  function Size(args: seq<Str>): nat { Off(args, |args|) }

  /** The little-endian offset at entry i of the table. */
  function Entry(b: seq<u8>, i: nat): int
    requires 2 * i + 2 <= |b|
  {
    var hi: int := b[2 * i + 1];
    b[2 * i] + hi * 256
  }

  /** A terminated string at o. */
  predicate StringAt(b: seq<u8>, o: nat, s: Str) { o + |s| + 1 <= |b| && b[o..o + |s| + 1] == s + [0] }

  /** b starts with the blob of args. */
  predicate Blob(b: seq<u8>, args: seq<Str>) {
    && ArgsOk(args) && Size(args) <= |b|
    && (forall i :: 0 <= i < |args| ==> Entry(b, i) == Off(args, i))
    && Entry(b, |args|) == 0
    && (forall i :: 0 <= i < |args| ==> StringAt(b, Off(args, i), args[i]))
  }

  /** Byte by byte: a table of little-endian offsets with two zeros after it, and right behind it each string
      and its zero, one after the other. */
  lemma BlobMeans(b: seq<u8>, args: seq<Str>)
    ensures forall i :: 0 <= i < |args| ==> Off(args, i + 1) == Off(args, i) + |args[i]| + 1
    ensures Off(args, 0) == 2 * |args| + 2 && Size(args) == Off(args, |args|)
    ensures Blob(b, args) <==>
            && Size(args) <= |b| && b[2 * |args|] == 0 && b[2 * |args| + 1] == 0
            && forall i :: 0 <= i < |args| ==> Written(b, i, Off(args, i), args[i])
  {
    hide Start;
    forall i | 0 <= i < |args|
      ensures Off(args, i + 1) == Off(args, i) + |args[i]| + 1
    {
      StartNext(args, i);
    }
    StartNone(args);
    if Size(args) <= |b| {
      forall i | 0 <= i < |args|
        ensures StrOk(args[i]) && Entry(b, i) == Off(args, i) && StringAt(b, Off(args, i), args[i]) <==>
                Written(b, i, Off(args, i), args[i])
      {
        hide Off;
        StringWritten(b, Off(args, i), args[i]);
      }
      hide Off, StringAt, Written;
    }
  }

  /** Entry i of the table says o, and there are string s's bytes and a zero, and no zero among them. */
  predicate Written(b: seq<u8>, i: nat, o: nat, s: Str) {
    && 2 * i + 1 < |b| && LittleEndian(b[2 * i], b[2 * i + 1]) == o && o + |s| < |b| && b[o + |s|] == 0
    && forall k :: 0 <= k < |s| ==> b[o + k] == s[k] != 0
  }

  function LittleEndian(low: int, high: int): int { low + 256 * high }

  lemma StartNext(args: seq<Str>, i: nat)
    requires i < |args|
    ensures Start(args, i + 1) == Start(args, i) + |args[i]| + 1
  {
  }

  lemma StartNone(args: seq<Str>)
    ensures Start(args, 0) == 0
  {
  }

  lemma StringWritten(b: seq<u8>, o: nat, s: Str)
    ensures StringAt(b, o, s) <==> o + |s| < |b| && b[o + |s|] == 0 && forall k :: 0 <= k < |s| ==> b[o + k] == s[k]
  {
    if o + |s| < |b| {
      var x, y := b[o..o + |s| + 1], s + [0];
      assert forall k :: 0 <= k <= |s| ==> x[k] == b[o + k];
      assert y[|s|] == 0 && forall k :: 0 <= k < |s| ==> y[k] == s[k];
      if b[o + |s|] == 0 && forall k :: 0 <= k < |s| ==> b[o + k] == s[k] {
        assert x == y;
      }
    }
  }

  lemma {:induction false} StartGrows(args: seq<Str>, i: nat, j: nat)
    requires i <= j <= |args|
    ensures Start(args, i) + (j - i) <= Start(args, j)
    decreases j
  {
    if i < j {
      StartGrows(args, i, j - 1);
    }
  }

  /** Strings past i do not move the start of string i. */
  lemma {:induction false} StartPrefix(args: seq<Str>, more: seq<Str>, i: nat)
    requires i <= |args|
    ensures Start(args + more, i) == Start(args, i)
  {
    if i > 0 {
      StartPrefix(args, more, i - 1);
    }
  }

  /** A replaced string moves those after it by the difference. */
  lemma {:induction false} StartReplaced(args: seq<Str>, k: nat, s: Str, i: nat)
    requires k < |args| && i <= |args|
    ensures Start(args[k := s], i) == Start(args, i) + (if i > k then |s| - |args[k]| else 0)
  {
    if i > 0 {
      StartReplaced(args, k, s, i - 1);
    }
  }

  /** A blob is of one list only. */
  lemma BlobUnique(b: seq<u8>, a: seq<Str>, c: seq<Str>)
    requires Blob(b, a) && Blob(b, c)
    ensures a == c
  {
    SameCount(b, a, c);
    SameCount(b, c, a);
    SamePrefix(b, a, c, |a|);
    assert a[..|a|] == a && c[..|a|] == c;
  }

  lemma SameCount(b: seq<u8>, a: seq<Str>, c: seq<Str>)
    requires Blob(b, a) && Blob(b, c)
    ensures |a| >= |c|
  {
    hide Off, Entry, StringAt, ArgsOk;
  }

  lemma {:induction false} SamePrefix(b: seq<u8>, a: seq<Str>, c: seq<Str>, n: nat)
    requires Blob(b, a) && Blob(b, c) && n <= |a| == |c|
    ensures Start(a, n) == Start(c, n) && a[..n] == c[..n]
  {
    hide Blob, StringAt, StrOk;
    if n > 0 {
      SamePrefix(b, a, c, n - 1);
      assert a[..n] == a[..n - 1] + [a[n - 1]] && c[..n] == c[..n - 1] + [c[n - 1]];
      StringOf(b, a, n - 1);
      StringOf(b, c, n - 1);
      SameString(b, Off(a, n - 1), a[n - 1], c[n - 1]);
    }
  }

  lemma StringOf(b: seq<u8>, args: seq<Str>, i: nat)
    requires Blob(b, args) && i < |args|
    ensures StrOk(args[i]) && StringAt(b, Off(args, i), args[i]) && Entry(b, i) == Off(args, i)
  {
    hide Off, Entry, StringAt;
  }

  lemma SameString(b: seq<u8>, o: nat, s: Str, t: Str)
    requires StrOk(s) && StrOk(t) && StringAt(b, o, s) && StringAt(b, o, t)
    ensures s == t
  {
    StringBytes(b, o, s);
    StringBytes(b, o, t);
    assert b[o + |s|] == 0 && b[o + |t|] == 0;
    assert |t| <= |s|;
    assert forall k :: 0 <= k < |s| ==> s[k] == t[k];
  }

  lemma StringBytes(b: seq<u8>, o: nat, s: Str)
    requires StringAt(b, o, s)
    ensures b[o + |s|] == 0 && forall k :: 0 <= k < |s| ==> s[k] == b[o + k]
  {
    var x := b[o..o + |s| + 1];
    assert x[|s|] == b[o + |s|];
    assert forall k :: 0 <= k < |s| ==> x[k] == b[o + k] && (s + [0])[k] == s[k];
  }

  // ---------------- what the edits do to a blob ----------------

  lemma MovedString(b: seq<u8>, b': seq<u8>, lo: nat, hi: nat, d: int, o: nat, s: Str)
    requires lo <= hi <= |b| && 0 <= lo + d && hi + d <= |b'| && b'[lo + d..hi + d] == b[lo..hi]
    requires lo <= o && o + |s| + 1 <= hi && StringAt(b, o, s)
    ensures StringAt(b', o + d, s)
  {
    var x, y, z, w := b'[lo + d..hi + d], b[lo..hi], b'[o + d..o + d + |s| + 1], b[o..o + |s| + 1];
    forall k | 0 <= k < |z|
      ensures z[k] == w[k]
    {
      assert z[k] == x[o - lo + k] && w[k] == y[o - lo + k];
    }
  }

  lemma OffEnds(args: seq<Str>, i: nat)
    requires i < |args|
    ensures Off(args, i) + |args[i]| + 1 == Off(args, i + 1) <= Size(args)
  {
    StartGrows(args, i + 1, |args|);
  }

  /** The strings moved up by two, their offsets raised by two, and a string at the end. */
  lemma AppendedBlob(b: seq<u8>, b': seq<u8>, args: seq<Str>, s: Str)
    requires Blob(b, args) && StrOk(s) && |b'| == |b| && Size(args) + 2 + |s| + 1 <= |b|
    requires b'[Off(args, 0) + 2..Size(args) + 2] == b[Off(args, 0)..Size(args)]
    requires forall i :: 0 <= i < |args| ==> Entry(b', i) == Entry(b, i) + 2
    requires Entry(b', |args|) == Size(args) + 2 && Entry(b', |args| + 1) == 0 && StringAt(b', Size(args) + 2, s)
    ensures Blob(b', args + [s])
    ensures Size(args + [s]) == Size(args) + 2 + |s| + 1
  {
    hide Blob, Entry, StringAt, StrOk;
    var next := args + [s];
    hide Off;
    forall i | 0 <= i < |next|
      ensures StrOk(next[i]) && Entry(b', i) == Off(next, i) && StringAt(b', Off(next, i), next[i])
    {
      AppendedOff(args, s, i);
      if i < |args| {
        StringOf(b, args, i);
        OffEnds(args, i);
        OffFirst(args, i);
        MovedString(b, b', Off(args, 0), Size(args), 2, Off(args, i), args[i]);
      }
    }
    AppendedOff(args, s, |args|);
    OffEnds(next, |args|);
    BlobOf(b', next);
  }

  lemma AppendedOff(args: seq<Str>, s: Str, i: nat)
    requires i <= |args|
    ensures Off(args + [s], i) == Off(args, i) + 2
  {
    StartPrefix(args, [s], i);
  }

  lemma OffFirst(args: seq<Str>, i: nat)
    requires i <= |args|
    ensures Off(args, 0) == 2 * (|args| + 1) <= Off(args, i) <= Size(args)
  {
    StartGrows(args, 0, i);
    StartGrows(args, i, |args|);
  }

  lemma BlobOf(b: seq<u8>, args: seq<Str>)
    requires Size(args) <= |b| && Entry(b, |args|) == 0
    requires forall i :: 0 <= i < |args| ==>
      StrOk(args[i]) && Entry(b, i) == Off(args, i) && StringAt(b, Off(args, i), args[i])
    ensures Blob(b, args)
  {
    hide Off, Entry, StringAt, StrOk;
  }

  /** One string exchanged, and the tail moved by the difference with its offsets. */
  lemma ReplacedBlob(b: seq<u8>, b': seq<u8>, args: seq<Str>, k: nat, s: Str)
    requires Blob(b, args) && StrOk(s) && k < |args| && |b'| == |b|
    requires var d := |s| - |args[k]|;
      && Off(args, k) <= Off(args, k + 1) <= Size(args) <= |b| && 0 <= Off(args, k + 1) + d && Size(args) + d <= |b|
      && b'[Off(args, 0)..Off(args, k)] == b[Off(args, 0)..Off(args, k)]
      && b'[Off(args, k + 1) + d..Size(args) + d] == b[Off(args, k + 1)..Size(args)]
      && (forall i :: 0 <= i < |args| ==> Entry(b', i) == Entry(b, i) + if i > k then d else 0)
      && Entry(b', |args|) == 0 && StringAt(b', Off(args, k), s)
    ensures Blob(b', args[k := s])
    ensures Size(args[k := s]) == Size(args) + |s| - |args[k]|
  {
    hide Blob, Entry, StringAt, StrOk;
    var next, d := args[k := s], |s| - |args[k]|;
    hide Off;
    ReplacedOff(args, k, s, |args|);
    OffFirst(args, k);
    OffEnds(args, k);
    forall i | 0 <= i < |next|
      ensures StrOk(next[i]) && Entry(b', i) == Off(next, i) && StringAt(b', Off(next, i), next[i])
    {
      ReplacedOff(args, k, s, i);
      StringOf(b, args, i);
      OffEnds(args, i);
      OffFirst(args, i);
      if i < k {
        OffGrows(args, i + 1, k);
        MovedString(b, b', Off(args, 0), Off(args, k), 0, Off(args, i), args[i]);
      } else if i > k {
        OffGrows(args, k + 1, i);
        MovedString(b, b', Off(args, k + 1), Size(args), d, Off(args, i), args[i]);
      }
    }
    BlobOf(b', next);
  }

  lemma ReplacedOff(args: seq<Str>, k: nat, s: Str, i: nat)
    requires k < |args| && i <= |args|
    ensures Off(args[k := s], i) == Off(args, i) + (if i > k then |s| - |args[k]| else 0)
  {
    StartReplaced(args, k, s, i);
  }

  lemma OffGrows(args: seq<Str>, i: nat, j: nat)
    requires i <= j <= |args|
    ensures Off(args, i) <= Off(args, j)
  {
    StartGrows(args, i, j);
  }

  /** Only the bytes of the blob matter. */
  lemma BlobPrefix(b: seq<u8>, b': seq<u8>, args: seq<Str>)
    requires Size(args) <= |b| && Size(args) <= |b'| && b[..Size(args)] == b'[..Size(args)] && Blob(b, args)
    ensures Blob(b', args)
  {
    hide Blob, StringAt, StrOk, Off;
    var n := Size(args);
    OffFirst(args, |args|);
    forall i | 0 <= i < |args|
      ensures StrOk(args[i]) && Entry(b', i) == Off(args, i) && StringAt(b', Off(args, i), args[i])
    {
      StringOf(b, args, i);
      OffEnds(args, i);
      MovedString(b, b', 0, n, 0, Off(args, i), args[i]);
      EntryPrefix(b, b', n, i);
    }
    assert Entry(b', |args|) == 0 by { EntryEnds(b, args); EntryPrefix(b, b', n, |args|); }
    BlobOf(b', args);
  }

  lemma EntryEnds(b: seq<u8>, args: seq<Str>)
    requires Blob(b, args)
    ensures Size(args) <= |b| && Entry(b, |args|) == 0
  {
  }

  lemma EntryPrefix(b: seq<u8>, b': seq<u8>, n: nat, i: nat)
    requires 2 * i + 2 <= n <= |b| && n <= |b'| && b[..n] == b'[..n]
    ensures Entry(b, i) == Entry(b', i)
  {
    assert b[..n][2 * i] == b'[..n][2 * i] && b[..n][2 * i + 1] == b'[..n][2 * i + 1];
  }

  // ---------------- counting ----------------

  /** The first zero entry from i on; 0 when there is none. */
  function CountFrom(b: seq<u8>, i: nat): nat
    requires |b| == XSTACK_SIZE && i <= XSTACK_SIZE / 2
    decreases XSTACK_SIZE / 2 - i
  {
    if i == XSTACK_SIZE / 2 then 0 else if Entry(b, i) == 0 then i else CountFrom(b, i + 1)
  }

  lemma {:induction false} CountIs(b: seq<u8>, args: seq<Str>, i: nat)
    requires |b| == XSTACK_SIZE && Blob(b, args) && i <= |args|
    ensures CountFrom(b, i) == |args|
    decreases |args| - i
  {
    hide StringAt, ArgsOk;
    if i < |args| {
      StringOf(b, args, i);
      CountIs(b, args, i + 1);
    }
  }

  class ArgBuf {
    const buf: array<u8>
    const xstack: array<u8>
    var ptr: nat            // xstack_ptr
    ghost var args: seq<Str>

    ghost predicate Valid()
      reads this, buf
    {
      buf.Length == XSTACK_SIZE && xstack.Length == XSTACK_SIZE && buf != xstack && ptr <= XSTACK_SIZE
        && Blob(buf[..], args)
    }

    constructor ()
      ensures Valid() && args == [] && ptr == XSTACK_SIZE && fresh(buf) && fresh(xstack)
    {
      buf, xstack := new u8[XSTACK_SIZE](_ => 0), new u8[XSTACK_SIZE](_ => 0);
      ptr, args := XSTACK_SIZE, [];
    }

    method Count() returns (n: nat)
      requires buf.Length == XSTACK_SIZE
      ensures n == CountFrom(buf[..], 0) < XSTACK_SIZE / 2
    {
      for i := 0 to XSTACK_SIZE / 2
        invariant CountFrom(buf[..], 0) == CountFrom(buf[..], i)
      {
        if buf[i * 2] == 0 && buf[i * 2 + 1] == 0 {
          return i;
        }
      }
      return 0;
    }

    method Clear()
      requires Valid()
      modifies buf, this`args
      ensures Valid() && args == []
    {
      buf[0], buf[1] := 0, 0;
      args := [];
    }

    method ReadOffset(i: nat) returns (x: int)
      requires buf.Length == XSTACK_SIZE && i < XSTACK_SIZE / 2
      ensures x == Entry(buf[..], i)
    {
      var hi: int := buf[i * 2 + 1];
      x := buf[i * 2] + hi * 256;
    }

    method WriteOffset(i: nat, x: int)
      requires buf.Length == XSTACK_SIZE && i < XSTACK_SIZE / 2 && 0 <= x < 0x10000
      modifies buf
      ensures Entry(buf[..], i) == x
      ensures forall k :: 0 <= k < XSTACK_SIZE && k != 2 * i && k != 2 * i + 1 ==> buf[k] == old(buf[k])
    {
      buf[i * 2], buf[i * 2 + 1] := x % 256, x / 256;
    }

    method StrLen(o: nat, ghost s: Str) returns (n: nat)
      requires buf.Length == XSTACK_SIZE && StrOk(s) && StringAt(buf[..], o, s)
      ensures n == |s|
    {
      StringBytes(buf[..], o, s);
      n := 0;
      while buf[o + n] != 0
        invariant n <= |s|
        decreases |s| - n
      {
        assert n < |s|;
        n := n + 1;
      }
    }

    /** The bytes in use. */
    method SizeOf() returns (n: nat)
      requires Valid()
      ensures n == Size(args)
    {
      hide Blob, StringAt, StrOk;
      CountIs(buf[..], args, 0);
      var count := Count();
      if count == 0 {
        return 2;
      }
      StringOf(buf[..], args, count - 1);
      OffEnds(args, count - 1);
      var offset := ReadOffset(count - 1);
      var len := StrLen(offset, args[count - 1]);
      return offset + len + 1;
    }

    /** The string at idx, or nothing. */
    method Index(idx: nat) returns (ok: bool, o: nat)
      requires Valid()
      ensures ok == (idx < |args|)
      ensures ok ==> StringAt(buf[..], o, args[idx])
    {
      hide Blob, StringAt, StrOk;
      CountIs(buf[..], args, 0);
      var count := Count();
      if idx >= count {
        return false, 0;
      }
      StringOf(buf[..], args, idx);
      o := ReadOffset(idx);
      return true, o;
    }

    method MemMove(dst: nat, src: nat, n: nat)
      requires buf.Length == XSTACK_SIZE && dst + n <= XSTACK_SIZE && src + n <= XSTACK_SIZE
      modifies buf
      ensures buf[dst..dst + n] == old(buf[src..src + n])
      ensures forall k :: 0 <= k < XSTACK_SIZE && !(dst <= k < dst + n) ==> buf[k] == old(buf[k])
    {
      forall i | 0 <= i < n { buf[dst + i] := buf[src + i]; }
    }

    /** A string and its terminator copied to o. */
    method CopyIn(o: nat, s: Str)
      requires buf.Length == XSTACK_SIZE && o + |s| + 1 <= XSTACK_SIZE
      modifies buf
      ensures StringAt(buf[..], o, s)
      ensures forall k :: 0 <= k < XSTACK_SIZE && !(o <= k < o + |s| + 1) ==> buf[k] == old(buf[k])
    {
      forall i | 0 <= i < |s| { buf[o + i] := s[i]; }
      buf[o + |s|] := 0;
      assert buf[..][o..o + |s| + 1] == s + [0];
    }

    /** Offsets of entries from first to n raised by d. */
    method Raise(first: nat, n: nat, d: int)
      requires buf.Length == XSTACK_SIZE && first <= n < XSTACK_SIZE / 2
      requires forall j :: first <= j < n ==> 0 <= Entry(buf[..], j) + d < 0x10000
      modifies buf
      ensures forall j :: first <= j < n ==> Entry(buf[..], j) == old(Entry(buf[..], j)) + d
      ensures forall k :: 0 <= k < XSTACK_SIZE && !(2 * first <= k < 2 * n) ==> buf[k] == old(buf[k])
    {
      ghost var b := buf[..];
      for i := first to n
        invariant forall j :: first <= j < i ==> Entry(buf[..], j) == Entry(b, j) + d
        invariant forall k :: 0 <= k < XSTACK_SIZE && !(2 * first <= k < 2 * i) ==> buf[k] == b[k]
      {
        assert Entry(buf[..], i) == Entry(b, i);
        var x := ReadOffset(i);
        WriteOffset(i, x + d);
      }
    }

    /** Adds a string at the end, when the result fits. */
    method Append(str: Str) returns (ok: bool)
      requires Valid() && StrOk(str) && |str| + 1 < 0x10000
      modifies buf, this`args
      ensures Valid() && ok == (Size(old(args) + [str]) <= 512)
      ensures args == if ok then old(args) + [str] else old(args)
      ensures !ok ==> buf[..] == old(buf[..])
    {
      hide Blob, StringAt, StrOk, Off, Entry;
      ghost var b := buf[..];
      CountIs(b, args, 0);
      OffFirst(args, |args|);
      AppendedSize(args, str);
      var count := Count();
      var start := (count + 1) * 2;
      var size := SizeOf();
      if size + 2 + |str| + 1 > XSTACK_SIZE {
        return false;
      }
      MoveUp(count, start, size);
      ghost var b1 := buf[..];
      WriteOffset(count, size + 2);
      ghost var b2 := buf[..];
      WriteOffset(count + 1, 0);
      ghost var b3 := buf[..];
      CopyIn(size + 2, str);
      AppendDone(b, b1, b2, b3, buf[..], args, str);
      args := args + [str];
      return true;
    }

    /** The strings two bytes up, and their offsets with them. */
    method MoveUp(count: nat, start: nat, size: nat)
      requires Valid() && count == |args| && start == Off(args, 0) && size == Size(args) <= XSTACK_SIZE - 2
      requires count < 255
      modifies buf
      ensures Moved(old(buf[..]), buf[..], args)
    {
      hide StringAt, StrOk, Off;
      ghost var b := buf[..];
      OffFirst(args, |args|);
      MemMove(start + 2, start, size - start);
      ghost var b1 := buf[..];
      forall j | 0 <= j < count
        ensures Entry(b1, j) == Entry(b, j) == Off(args, j) <= Size(args)
      {
        OffFirst(args, j);
        EntrySame(b, b1, j);
      }
      Raise(0, count, 2);
      assert buf[..][start + 2..size + 2] == b1[start + 2..size + 2];
    }

    /** Exchanges the string at idx, when the result fits. */
    method Replace(idx: nat, str: Str) returns (ok: bool)
      requires Valid() && StrOk(str) && |str| + 1 < 0x10000
      modifies buf, this`args
      ensures Valid() && ok == (idx < |old(args)| && Size(old(args)[idx := str]) <= 512)
      ensures args == if ok then old(args)[idx := str] else old(args)
      ensures !ok ==> buf[..] == old(buf[..])
    {
      hide Blob, StringAt, StrOk, Off, Entry;
      ghost var b := buf[..];
      CountIs(b, args, 0);
      var count := Count();
      if idx >= count {
        return false;
      }
      ReplacedSize(args, idx, str);
      EntryEnds(b, args);
      StringOf(b, args, idx);
      OffEnds(args, idx);
      var offset := ReadOffset(idx);
      var oldLen := StrLen(offset, args[idx]);
      oldLen := oldLen + 1;
      var newLen := |str| + 1;
      var size := SizeOf();
      if newLen > oldLen && size + (newLen - oldLen) > XSTACK_SIZE {
        return false;
      }
      Exchange(idx, count, offset, oldLen, str, size);
      return true;
    }

    /** The tail slides when the length differs, and the new string goes in. */
    method Exchange(idx: nat, count: nat, offset: nat, oldLen: nat, str: Str, size: nat)
      requires Valid() && idx < count == |args| && offset == Off(args, idx) && oldLen == |args[idx]| + 1
      requires StrOk(str) && size == Size(args) && size + |str| + 1 - oldLen <= XSTACK_SIZE
      modifies buf, this`args
      ensures Valid() && args == old(args)[idx := str]
    {
      hide Blob, StringAt, StrOk, Off, Entry, Slid;
      ghost var b := buf[..];
      OffEnds(args, idx);
      var newLen := |str| + 1;
      if newLen != oldLen {
        Slide(idx, count, offset + oldLen, newLen - oldLen, size);
      } else {
        SlideNone(b, args, idx);
      }
      ghost var b2 := buf[..];
      CopyIn(offset, str);
      ReplaceDone(b, b2, buf[..], args, idx, str);
      args := args[idx := str];
    }

    /** What follows string idx moved by d, and the offsets of what moved. */
    method Slide(idx: nat, count: nat, end: nat, d: int, size: nat)
      requires Valid() && idx < count == |args| && end == Off(args, idx + 1) && size == Size(args)
      requires Off(args, idx) <= end + d && size + d <= XSTACK_SIZE
      modifies buf
      ensures Slid(old(buf[..]), buf[..], args, idx, d)
    {
      hide Blob, StringAt, StrOk, Off, Entry, Slid;
      ghost var b := buf[..];
      EntryEnds(b, args);
      OffFirst(args, idx);
      OffEnds(args, idx);
      MemMove(end + d, end, size - end);
      ghost var b1 := buf[..];
      forall j | 0 <= j < count
        ensures Entry(b1, j) == Off(args, j) <= Size(args)
      {
        EntrySame(b, b1, j);
        StringOf(b, args, j);
        OffFirst(args, j);
      }
      RaisePast(count, end, d);
      SlideDone(b, b1, buf[..], args, idx, d);
    }

    /** Offsets from bound up raised by d. */
    method RaisePast(count: nat, bound: int, d: int)
      requires buf.Length == XSTACK_SIZE && count < XSTACK_SIZE / 2
      requires forall j :: 0 <= j < count && Entry(buf[..], j) >= bound ==> 0 <= Entry(buf[..], j) + d < 0x10000
      modifies buf
      ensures forall j :: 0 <= j < count ==>
        Entry(buf[..], j) == old(Entry(buf[..], j)) + if old(Entry(buf[..], j)) >= bound then d else 0
      ensures forall k :: 2 * count <= k < XSTACK_SIZE ==> buf[k] == old(buf[k])
    {
      ghost var b := buf[..];
      for i := 0 to count
        invariant forall j :: 0 <= j < i ==> Entry(buf[..], j) == Entry(b, j) + if Entry(b, j) >= bound then d else 0
        invariant forall k :: 2 * i <= k < XSTACK_SIZE ==> buf[k] == b[k]
      {
        assert Entry(buf[..], i) == Entry(b, i);
        var x := ReadOffset(i);
        if x >= bound {
          WriteOffset(i, x + d);
        }
      }
    }

    /** Leaves the blob on the xstack, where the 6502 reads it. */
    method PushXstack() returns (size: nat)
      requires Valid()
      modifies xstack, this`ptr
      ensures Valid() && size == Size(args) && ptr == XSTACK_SIZE - size
      ensures xstack[ptr..] == buf[..size] && buf[..] == old(buf[..])
    {
      hide Blob, StringAt, StrOk, Off, Entry;
      size := SizeOf();
      EntryEnds(buf[..], args);
      ptr := XSTACK_SIZE - size;
      ghost var b := buf[..];
      forall i | 0 <= i < size { xstack[ptr + i] := buf[i]; }
      assert buf[..] == b;
    }

    /** The first zero from start on, or the end of the buffer. */
    method Skip(start: nat) returns (pos: nat)
      requires buf.Length == XSTACK_SIZE && start <= XSTACK_SIZE
      ensures start <= pos <= XSTACK_SIZE && (forall k :: start <= k < pos ==> buf[k] != 0)
      ensures pos < XSTACK_SIZE ==> buf[pos] == 0
    {
      pos := start;
      while pos < XSTACK_SIZE && buf[pos] != 0
        invariant start <= pos <= XSTACK_SIZE && forall k :: start <= k < pos ==> buf[k] != 0
      {
        pos := pos + 1;
      }
    }

    /** Whether the buffer holds a blob that ends at size, its last terminator in or out. */
    method Validate(size: nat) returns (ok: bool, ghost found: seq<Str>)
      requires buf.Length == XSTACK_SIZE && size <= XSTACK_SIZE && CountFrom(buf[..], 0) > 0
      ensures ok ==> Blob(buf[..], found) && |found| > 0 && (Size(found) == size || Size(found) == size + 1)
      ensures !ok ==> forall args :: Blob(buf[..], args) ==> Size(args) != size && Size(args) != size + 1
    {
      hide Blob, StringAt, StrOk, Off, Entry, CountFrom, Walked;
      ghost var b := buf[..];
      var count := Count();
      CountEntry(b, 0);
      found := [];
      var pos: nat := (count + 1) * 2;
      WalkStart(b, count);
      if pos >= XSTACK_SIZE {
        NoRoom(b, count);
        return false, [];
      }
      for i := 0 to count
        invariant |found| == i && Walked(b, found, count, pos) && pos <= XSTACK_SIZE
      {
        var offset := ReadOffset(i);
        if offset != pos {
          WrongOffset(b, found, count, pos);
          return false, [];
        }
        var end := Skip(pos);
        if end >= XSTACK_SIZE {
          NoTerminator(b, found, count, pos);
          return false, [];
        }
        WalkOn(b, found, count, pos, end);
        found := found + [b[pos..end]];
        pos := end + 1;
      }
      WalkedAll(b, found, count, pos);
      ok := pos == size || pos == size + 1;
    }

    /** Takes the blob the 6502 left on the xstack, and empties both when it is not one. */
    method PullXstack() returns (ok: bool)
      requires Valid()
      modifies buf, this`ptr, this`args
      ensures Valid() && ptr == XSTACK_SIZE
      ensures ok ==> args != [] && Pulls(old(xstack[ptr..]), args)
      ensures !ok ==> args == [] && forall a :: a != [] ==> !Pulls(old(xstack[ptr..]), a)
    {
      hide Blob, StringAt, StrOk, Off, Entry, CountFrom;
      ghost var x := xstack[ptr..];
      var size := XSTACK_SIZE - ptr;
      forall i | 0 <= i < XSTACK_SIZE { buf[i] := if i < size then xstack[ptr + i] else 0; }
      ptr := XSTACK_SIZE;
      ghost var b := buf[..];
      assert b[..size] == x && (size < XSTACK_SIZE ==> b[..size + 1] == x + [0]);
      var count := Count();
      ok := false;
      ghost var found: seq<Str> := [];
      if count > 0 {
        ok, found := Validate(size);
      }
      if ok {
        args := found;
        PullsIs(x, b, found);
      } else {
        Refused(x, b);
        buf[0], buf[1] := 0, 0;
        args := [];
        EmptyBlob(buf[..]);
      }
    }
  }

  /** x, with its last terminator in or out, is the blob of args. */
  predicate Pulls(x: seq<u8>, args: seq<Str>) {
    (|x| == Size(args) && Blob(x, args)) || (|x| + 1 == Size(args) <= XSTACK_SIZE && Blob(x + [0], args))
  }

  /** What the walk over a blob has found so far, and that no other list could be there. */
  ghost predicate Walked(b: seq<u8>, found: seq<Str>, count: nat, pos: nat) {
    Found(b, found, count, pos) && Only(b, found, count)
  }

  predicate Found(b: seq<u8>, found: seq<Str>, count: nat, pos: nat) {
    && |found| <= count && |b| == XSTACK_SIZE && ArgsOk(found) && 2 * count + 2 <= XSTACK_SIZE && Entry(b, count) == 0
    && pos == 2 * (count + 1) + Start(found, |found|)
    && (forall i :: 0 <= i < |found| ==> FoundAt(b, found, count, i))
  }

  predicate FoundAt(b: seq<u8>, found: seq<Str>, count: nat, i: nat)
    requires i < |found| <= count && 2 * count + 2 <= |b|
  {
    var o := 2 * (count + 1) + Start(found, i);
    Entry(b, i) == o && StringAt(b, o, found[i])
  }

  ghost predicate Only(b: seq<u8>, found: seq<Str>, count: nat) {
    |found| <= count && forall args :: Blob(b, args) ==> |args| == count && args[..|found|] == found
  }

  lemma EmptyBlob(b: seq<u8>)
    requires |b| == XSTACK_SIZE && b[0] == 0 && b[1] == 0
    ensures Blob(b, [])
  {
  }

  /** b' is b with what follows string k moved by d, offsets and all. */
  predicate Slid(b: seq<u8>, b': seq<u8>, args: seq<Str>, k: nat, d: int)
    requires k < |args|
  {
    && |b| == XSTACK_SIZE == |b'|
    && 0 <= Off(args, 0) <= Off(args, k) <= Off(args, k + 1) <= Size(args) <= XSTACK_SIZE
    && 0 <= Off(args, k + 1) + d && Size(args) + d <= XSTACK_SIZE
    && b'[Off(args, 0)..Off(args, k)] == b[Off(args, 0)..Off(args, k)]
    && b'[Off(args, k + 1) + d..Size(args) + d] == b[Off(args, k + 1)..Size(args)]
    && (forall i :: 0 <= i < |args| ==>
          2 * i + 2 <= XSTACK_SIZE && Entry(b', i) == Entry(b, i) + if i > k then d else 0)
    && 2 * |args| + 2 <= XSTACK_SIZE && Entry(b', |args|) == 0
  }

  lemma SlideDone(b: seq<u8>, b1: seq<u8>, b2: seq<u8>, args: seq<Str>, k: nat, d: int)
    requires k < |args| && |b| == |b1| == |b2| == XSTACK_SIZE && Blob(b, args)
    requires var end, size := Off(args, k + 1), Size(args);
      && Off(args, k) <= end <= size <= XSTACK_SIZE && Off(args, k) <= end + d && size + d <= XSTACK_SIZE
      && b1[end + d..size + d] == b[end..size]
      && (forall i :: 0 <= i < XSTACK_SIZE && !(end + d <= i < size + d) ==> b1[i] == b[i])
      && (forall j :: 0 <= j < |args| && 2 * j + 2 <= XSTACK_SIZE ==>
            Entry(b2, j) == Entry(b1, j) + if Entry(b1, j) >= end then d else 0)
      && (forall i :: 2 * |args| <= i < XSTACK_SIZE ==> b2[i] == b1[i])
    ensures Slid(b, b2, args, k, d)
  {
    hide Blob, StringAt, StrOk, Off, Entry;
    var end, size := Off(args, k + 1), Size(args);
    OffFirst(args, k);
    EntryEnds(b, args);
    EntrySame(b, b1, |args|);
    EntrySame(b1, b2, |args|);
    forall j | 0 <= j < |args|
      ensures 2 * j + 2 <= XSTACK_SIZE && Entry(b2, j) == Entry(b, j) + if j > k then d else 0
    {
      EntrySame(b, b1, j);
      StringOf(b, args, j);
      OffEnds(args, j);
      if j <= k { OffGrows(args, j + 1, k + 1); } else { OffGrows(args, k + 1, j); }
    }
    assert b2[Off(args, 0)..Off(args, k)] == b[Off(args, 0)..Off(args, k)];
    assert b2[end + d..size + d] == b1[end + d..size + d];
  }

  lemma SlideNone(b: seq<u8>, args: seq<Str>, k: nat)
    requires |b| == XSTACK_SIZE && Blob(b, args) && k < |args|
    ensures Slid(b, b, args, k, 0)
  {
    hide StringAt, StrOk, Off;
    OffFirst(args, k);
    OffEnds(args, k);
  }

  lemma ReplacedSize(args: seq<Str>, k: nat, s: Str)
    requires k < |args|
    ensures Size(args[k := s]) == Size(args) + |s| - |args[k]|
  {
    StartReplaced(args, k, s, |args|);
  }

  /** A slide and a copy leave the blob with one string exchanged. */
  lemma ReplaceDone(b: seq<u8>, b2: seq<u8>, b3: seq<u8>, args: seq<Str>, k: nat, s: Str)
    requires k < |args| && Blob(b, args) && Slid(b, b2, args, k, |s| - |args[k]|) && StrOk(s) && |b3| == XSTACK_SIZE
    requires StringAt(b3, Off(args, k), s)
    requires forall i :: 0 <= i < XSTACK_SIZE && !(Off(args, k) <= i < Off(args, k) + |s| + 1) ==> b3[i] == b2[i]
    ensures Blob(b3, args[k := s])
  {
    hide Blob, StringAt, StrOk, Off, Entry;
    var d := |s| - |args[k]|;
    OffFirst(args, k);
    OffEnds(args, k);
    forall i | 0 <= i <= |args|
      ensures Entry(b3, i) == Entry(b2, i)
    {
      EntrySame(b2, b3, i);
    }
    assert b3[Off(args, 0)..Off(args, k)] == b2[Off(args, 0)..Off(args, k)];
    assert b3[Off(args, k + 1) + d..Size(args) + d] == b2[Off(args, k + 1) + d..Size(args) + d];
    ReplacedBlob(b, b3, args, k, s);
  }

  predicate Moved(b: seq<u8>, b': seq<u8>, args: seq<Str>) {
    && |b| == XSTACK_SIZE == |b'| && Off(args, 0) <= Size(args) <= XSTACK_SIZE - 2
    && b'[Off(args, 0) + 2..Size(args) + 2] == b[Off(args, 0)..Size(args)]
    && forall j :: 0 <= j < |args| ==> 2 * j + 2 <= XSTACK_SIZE && Entry(b', j) == Entry(b, j) + 2
  }

  lemma EntrySame(b: seq<u8>, b': seq<u8>, i: nat)
    requires 2 * i + 2 <= |b| && |b'| == |b| && b'[2 * i] == b[2 * i] && b'[2 * i + 1] == b[2 * i + 1]
    ensures Entry(b', i) == Entry(b, i)
  {
  }

  lemma AppendedSize(args: seq<Str>, s: Str)
    ensures Size(args + [s]) == Size(args) + 2 + |s| + 1
  {
    StartPrefix(args, [s], |args|);
  }

  /** The four writes that end an append leave the blob of one string more. */
  lemma AppendDone(b: seq<u8>, b1: seq<u8>, b2: seq<u8>, b3: seq<u8>, b4: seq<u8>, args: seq<Str>, s: Str)
    requires Blob(b, args) && Moved(b, b1, args) && StrOk(s) && |b| == |b1| == |b2| == |b3| == |b4| == XSTACK_SIZE
    requires var n, size := |args|, Size(args);
      && size + 2 + |s| + 1 <= XSTACK_SIZE && 2 * n + 4 <= size + 2
      && Entry(b2, n) == size + 2 && Entry(b3, n + 1) == 0 && StringAt(b4, size + 2, s)
      && (forall k :: 0 <= k < XSTACK_SIZE && k != 2 * n && k != 2 * n + 1 ==> b2[k] == b1[k])
      && (forall k :: 0 <= k < XSTACK_SIZE && k != 2 * (n + 1) && k != 2 * (n + 1) + 1 ==> b3[k] == b2[k])
      && (forall k :: 0 <= k < XSTACK_SIZE && !(size + 2 <= k < size + 2 + |s| + 1) ==> b4[k] == b3[k])
    ensures Blob(b4, args + [s])
  {
    hide Blob, StringAt, StrOk, Off, Entry;
    var n, size := |args|, Size(args);
    OffFirst(args, n);
    EntrySame(b2, b3, n);
    EntrySame(b3, b4, n);
    EntrySame(b3, b4, n + 1);
    forall j | 0 <= j < n
      ensures Entry(b4, j) == Entry(b, j) + 2
    {
      EntrySame(b1, b2, j);
      EntrySame(b2, b3, j);
      EntrySame(b3, b4, j);
    }
    assert b4[Off(args, 0) + 2..size + 2] == b1[Off(args, 0) + 2..size + 2];
    AppendedBlob(b, b4, args, s);
  }

  lemma {:induction false} CountEntry(b: seq<u8>, i: nat)
    requires |b| == XSTACK_SIZE && i <= XSTACK_SIZE / 2 && CountFrom(b, i) > 0
    ensures CountFrom(b, i) < XSTACK_SIZE / 2 && Entry(b, CountFrom(b, i)) == 0
    decreases XSTACK_SIZE / 2 - i
  {
    if i < XSTACK_SIZE / 2 && Entry(b, i) != 0 {
      CountEntry(b, i + 1);
    }
  }

  lemma WalkStart(b: seq<u8>, count: nat)
    requires |b| == XSTACK_SIZE && count == CountFrom(b, 0) && 2 * count + 2 <= XSTACK_SIZE && Entry(b, count) == 0
    ensures Walked(b, [], count, 2 * (count + 1))
  {
    hide Blob, Entry, CountFrom;
    forall args | Blob(b, args)
      ensures |args| == count && args[..0] == []
    {
      CountIs(b, args, 0);
    }
  }

  lemma NoRoom(b: seq<u8>, count: nat)
    requires Walked(b, [], count, 2 * (count + 1)) && 2 * (count + 1) >= XSTACK_SIZE && count > 0
    ensures forall args :: !Blob(b, args)
  {
    hide Entry, StringAt;
    forall args
      ensures !Blob(b, args)
    {
      if Blob(b, args) {
        BlobSize(b, args);
        assert false;
      }
    }
  }

  lemma BlobSize(b: seq<u8>, args: seq<Str>)
    requires Blob(b, args)
    ensures 2 * (|args| + 1) + |args| <= Size(args) <= |b|
  {
  }

  /** Where the walk stands is where the next string of any list would have to start. */
  lemma WalkedOff(b: seq<u8>, found: seq<Str>, count: nat, pos: nat, args: seq<Str>)
    requires Walked(b, found, count, pos) && |found| < count && Blob(b, args)
    ensures |args| == count && Off(args, |found|) == pos && Entry(b, |found|) == pos
    ensures StrOk(args[|found|]) && StringAt(b, pos, args[|found|])
  {
    hide Entry, StringAt, StrOk, Blob;
    var i := |found|;
    assert args == args[..i] + args[i..];
    StartPrefix(args[..i], args[i..], i);
    StringOf(b, args, i);
  }

  lemma WrongOffset(b: seq<u8>, found: seq<Str>, count: nat, pos: nat)
    requires Walked(b, found, count, pos) && |found| < count && Entry(b, |found|) != pos
    ensures forall args :: !Blob(b, args)
  {
    hide Entry, StringAt, StrOk, Blob, Walked;
    forall args
      ensures !Blob(b, args)
    {
      if Blob(b, args) {
        WalkedOff(b, found, count, pos, args);
        assert false;
      }
    }
  }

  lemma NoTerminator(b: seq<u8>, found: seq<Str>, count: nat, start: nat)
    requires Walked(b, found, count, start) && |found| < count && |b| == XSTACK_SIZE
    requires forall k :: start <= k < XSTACK_SIZE ==> b[k] != 0
    ensures forall args :: !Blob(b, args)
  {
    hide Entry, StrOk, Blob, Walked;
    forall args
      ensures !Blob(b, args)
    {
      if Blob(b, args) {
        WalkedOff(b, found, count, start, args);
        StringBytes(b, start, args[|found|]);
        assert false;
      }
    }
  }

  lemma WalkOn(b: seq<u8>, found: seq<Str>, count: nat, start: nat, pos: nat)
    requires Walked(b, found, count, start) && |found| < count && |b| == XSTACK_SIZE && start <= pos < XSTACK_SIZE
    requires Entry(b, |found|) == start && b[pos] == 0 && forall k :: start <= k < pos ==> b[k] != 0
    ensures Walked(b, found + [b[start..pos]], count, pos + 1)
  {
    var s := b[start..pos];
    assert StrOk(s);
    assert b[start..start + |s| + 1] == s + [0];
    FoundOn(b, found, count, start, s);
    hide Entry, StringAt, StrOk, Blob, Found;
    forall args | Blob(b, args)
      ensures |args| == count && args[..|found| + 1] == found + [s]
    {
      WalkedNext(b, found, count, start, s, args);
    }
  }

  lemma FoundOn(b: seq<u8>, found: seq<Str>, count: nat, start: nat, s: Str)
    requires Found(b, found, count, start) && |found| < count && StrOk(s) && StringAt(b, start, s)
    requires Entry(b, |found|) == start
    ensures Found(b, found + [s], count, start + |s| + 1)
  {
    var next := found + [s];
    hide Entry, StringAt, StrOk;
    forall i | 0 <= i < |next|
      ensures FoundAt(b, next, count, i)
    {
      StartPrefix(found, [s], i);
      assert i < |found| ==> FoundAt(b, found, count, i);
    }
    StartPrefix(found, [s], |found|);
  }

  lemma WalkedNext(b: seq<u8>, found: seq<Str>, count: nat, start: nat, s: Str, args: seq<Str>)
    requires Walked(b, found, count, start) && |found| < count && StrOk(s) && StringAt(b, start, s) && Blob(b, args)
    ensures |args| == count && args[..|found| + 1] == found + [s]
  {
    WalkedOff(b, found, count, start, args);
    hide StringAt, StrOk, Entry, Blob, Found;
    SameString(b, start, s, args[|found|]);
    assert args[..|found|] == found;
    assert args[..|found| + 1] == args[..|found|] + [args[|found|]];
  }

  lemma WalkedAll(b: seq<u8>, found: seq<Str>, count: nat, pos: nat)
    requires Walked(b, found, count, pos) && |found| == count && pos <= XSTACK_SIZE
    ensures Blob(b, found) && Size(found) == pos
    ensures forall args :: Blob(b, args) ==> args == found
  {
    hide Entry, StringAt, StrOk;
    assert Blob(b, found) by {
      forall i | 0 <= i < |found|
        ensures StrOk(found[i]) && Entry(b, i) == Off(found, i) && StringAt(b, Off(found, i), found[i])
      {
        assert FoundAt(b, found, count, i);
      }
      BlobOf(b, found);
    }
    hide Blob;
    forall args | Blob(b, args)
      ensures args == found
    {
      assert args[..count] == args;
    }
  }

  lemma PullsBlob(x: seq<u8>, b: seq<u8>, args: seq<Str>)
    requires |b| == XSTACK_SIZE >= |x| && b[..|x|] == x && (|x| < XSTACK_SIZE ==> b[..|x| + 1] == x + [0])
    requires Pulls(x, args)
    ensures Blob(b, args) && (Size(args) == |x| || Size(args) == |x| + 1)
  {
    hide Blob, Off;
    if |x| == Size(args) && Blob(x, args) {
      assert x[..Size(args)] == x;
      BlobPrefix(x, b, args);
    } else {
      assert (x + [0])[..Size(args)] == x + [0];
      BlobPrefix(x + [0], b, args);
    }
  }

  lemma PullsIs(x: seq<u8>, b: seq<u8>, args: seq<Str>)
    requires |b| == XSTACK_SIZE >= |x| && b[..|x|] == x && (|x| < XSTACK_SIZE ==> b[..|x| + 1] == x + [0])
    requires Blob(b, args) && (Size(args) == |x| || Size(args) == |x| + 1)
    ensures Pulls(x, args)
  {
    hide Blob, Off;
    BlobSize(b, args);
    if Size(args) == |x| {
      assert x[..Size(args)] == x;
      BlobPrefix(b, x, args);
    } else {
      assert (x + [0])[..Size(args)] == x + [0];
      BlobPrefix(b, x + [0], args);
    }
  }

  lemma Refused(x: seq<u8>, b: seq<u8>)
    requires |b| == XSTACK_SIZE >= |x| && b[..|x|] == x && (|x| < XSTACK_SIZE ==> b[..|x| + 1] == x + [0])
    requires CountFrom(b, 0) == 0 || forall args :: Blob(b, args) ==> Size(args) != |x| && Size(args) != |x| + 1
    ensures forall a :: a != [] ==> !Pulls(x, a)
  {
    hide Blob, Off, CountFrom;
    forall a | a != []
      ensures !Pulls(x, a)
    {
      if Pulls(x, a) {
        PullsBlob(x, b, a);
        CountIs(b, a, 0);
        assert false;
      }
    }
  }

  /** What was pushed is pulled back, and as no other list. */
  lemma PushPull(b: seq<u8>, args: seq<Str>, a: seq<Str>)
    requires |b| == XSTACK_SIZE && Blob(b, args) && args != []
    ensures Pulls(b[..Size(args)], args)
    ensures Pulls(b[..Size(args)], a) && a != [] ==> a == args
  {
    hide Blob, Off, CountFrom;
    BlobSize(b, args);
    var x := b[..Size(args)];
    assert x[..Size(args)] == b[..Size(args)];
    BlobPrefix(b, x, args);
    if Pulls(x, a) && a != [] {
      var y := x + [0];
      assert y[..Size(args)] == x;
      BlobPrefix(x, y, args);
      if |x| == Size(a) && Blob(x, a) {
        BlobUnique(x, a, args);
      } else {
        BlobUnique(y, a, args);
      }
    }
  }
}
