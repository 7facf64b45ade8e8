/** Arguments quoted by the console (quote of tools/rp6502.py) and read back by the monitor's parser
    (str_parse_string of src/core/str/str.c). */
module Quoting {
  import opened Common
  import opened MonitorText
  import opened RomText

  const QUOTE: u8 := 34
  const BACKSLASH: u8 := 92
  const MAX := 255

  // ---------------- the parser's rule ----------------

  predicate IsOctal(c: u8) { 48 <= c <= 55 }

  /** How many hex digits s starts with, and their value modulo 2^32. */
  function HexRun(s: Text, val: int): (r: (nat, int))
    requires 0 <= val < 0x1_0000_0000
    ensures r.0 <= |s| && 0 <= r.1 < 0x1_0000_0000
    decreases |s|
  {
    if s == [] || !IsHex(s[0]) then (0, val)
    else
      var r := HexRun(s[1..], (val * 16 + HexValue(s[0])) % 0x1_0000_0000);
      (r.0 + 1, r.1)
  }

  /** Up to n octal digits at the start of s, added to val. */
  function OctalRun(s: Text, val: int, n: nat): (r: (nat, int))
    requires val >= 0
    ensures r.0 <= |s| && r.0 <= n && r.1 >= 0
    decreases n
  {
    if n == 0 || s == [] || !IsOctal(s[0]) then (0, val)
    else
      var r := OctalRun(s[1..], val * 8 + s[0] - 48, n - 1);
      (r.0 + 1, r.1)
  }

  /** A byte of a quoted string, and how many it is written with. */
  datatype Char = Char(b: u8, len: nat)

  function Letter(c: u8): Option<u8> {
    if c == 110 then Some(10) else if c == 116 then Some(9) else if c == 114 then Some(13) else if c == 97 then Some(7)
    else if c == 98 then Some(8) else if c == 102 then Some(12) else if c == 118 then Some(11) else None
  }

  /** No byte is zero: it would end the string. */
  function Nonzero(val: int, len: nat): Option<Char>
    requires val >= 0
  {
    if val % 256 == 0 then None else Some(Char(val % 256, len))
  }

  /** The first byte of a quoted string's text. */
  function Escape(s: Text): (r: Option<Char>)
    requires s != []
    ensures r.Some? ==> 0 < r.value.len <= |s|
  {
    if s[0] != BACKSLASH || |s| == 1 then Some(Char(s[0], 1))
    else if Letter(s[1]).Some? then Some(Char(Letter(s[1]).value, 2))
    else if s[1] == 120 then
      var r := HexRun(s[2..], 0);
      if r.0 == 0 then None else Nonzero(r.1, 2 + r.0)
    else if IsOctal(s[1]) then
      var r := OctalRun(s[2..], s[1] - 48, 2);
      Nonzero(r.1, 2 + r.0)
    else Some(Char(s[1], 2))
  }

  /** What is read, and what is left. */
  datatype Read = Read(out: Text, rest: Text)

  /** Up to the closing quote. */
  function Quoted(s: Text, out: Text): (r: Option<Read>)
    ensures r.Some? ==> |r.value.rest| < |s|
    decreases |s|
  {
    if s == [] then None
    else if s[0] == QUOTE then Some(Read(out, s[1..]))
    else if |out| >= MAX || Escape(s).None? then None
    else Quoted(s[Escape(s).value.len..], out + [Escape(s).value.b])
  }

  /** Up to a space or the end. */
  function Word(s: Text, out: Text): (r: Option<Read>)
    ensures r.Some? ==> |r.value.rest| <= |s| && (s != [] && s[0] != SPACE ==> |r.value.rest| < |s|)
    decreases |s|
  {
    if s == [] || s[0] == SPACE then Some(Read(out, s))
    else if s[0] == QUOTE then
      match Quoted(s[1..], out)
      case None => None
      case Some(q) => Word(q.rest, q.out)
    else if |out| >= MAX then None
    else Word(s[1..], out + [s[0]])
  }

  /** One argument off the front, and the spaces after it; args moves past the spaces before it even
      when it is refused. */
  function ParseString(args: Text): (r: (Option<Text>, Text))
    ensures r.0.Some? ==> |r.1| < |args|
  {
    var t := Trim(args);
    if t == [] then (None, args)
    else
      match Word(t, [])
      case None => (None, t)
      case Some(w) => (Some(w.out), Trim(w.rest))
  }

  // ---------------- the parser ----------------

  class StrParser {
    const buf: array<u8>  // str_buf

    constructor ()
      ensures buf.Length == 256 && fresh(buf)
    {
      buf := new u8[256](_ => 0);
    }

    method Hex(args: Text, start: nat) returns (j: nat, val: int)
      requires start <= |args|
      ensures start <= j <= |args| && HexRun(args[start..], 0) == (j - start, val)
    {
      j, val := start, 0;
      while j < |args| && IsHex(args[j])
        invariant start <= j <= |args| && 0 <= val < 0x1_0000_0000
        invariant var r := HexRun(args[j..], val); HexRun(args[start..], 0) == (r.0 + j - start, r.1)
      {
        assert args[j..][1..] == args[j + 1..];
        val := (val * 16 + HexValue(args[j])) % 0x1_0000_0000;
        j := j + 1;
      }
    }

    method Octal(args: Text, start: nat, first: int) returns (j: nat, val: int)
      requires start <= |args| && first >= 0
      ensures start <= j <= |args| && OctalRun(args[start..], first, 2) == (j - start, val)
    {
      j, val := start, first;
      if j < |args| && IsOctal(args[j]) {
        assert args[start..][1..] == args[start + 1..];
        val := val * 8 + args[j] - 48;
        j := j + 1;
        if j < |args| && IsOctal(args[j]) {
          val := val * 8 + args[j] - 48;
          j := j + 1;
        }
      }
    }

    /** The byte at start of a quoted string; 0 for one that is refused. */
    method Unescape(args: Text, start: nat) returns (b: u8, j: nat)
      requires start < |args|
      ensures Escape(args[start..]).Some? ==>
        start + Escape(args[start..]).value.len == j <= |args| && b == Escape(args[start..]).value.b
      ensures Escape(args[start..]).None? <==> j == 0
    {
      hide HexRun, OctalRun;
      ghost var s := args[start..];
      if args[start] != BACKSLASH || start + 1 == |args| {
        return args[start], start + 1;
      }
      assert s[2..] == args[start + 2..];
      var c := args[start + 1];
      var val;
      if Letter(c).Some? {
        return Letter(c).value, start + 2;
      } else if c == 120 {
        j, val := Hex(args, start + 2);
        if j == start + 2 {
          return 0, 0;
        }
      } else if IsOctal(c) {
        j, val := Octal(args, start + 2, c - 48);
      } else {
        return c, start + 2;
      }
      if val % 256 == 0 {
        return 0, 0;
      }
      b := val % 256;
    }

    /** From an opening quote to past its close; ok false for one that is refused. */
    method InQuotes(args: Text, start: nat, used: nat) returns (ok: bool, j: nat, out: nat)
      requires start <= |args| && buf.Length == 256 && used <= MAX
      modifies buf
      ensures ok == Quoted(args[start..], old(buf[..used])).Some?
      ensures ok ==>
        && start < j <= |args| && out <= MAX
        && Quoted(args[start..], old(buf[..used])) == Some(Read(buf[..out], args[j..]))
    {
      hide Escape;
      ghost var whole := Quoted(args[start..], buf[..used]);
      j, out := start, used;
      while j < |args| && args[j] != QUOTE
        invariant start <= j <= |args| && out <= MAX
        invariant Quoted(args[j..], buf[..out]) == whole
        decreases |args| - j
      {
        if out >= MAX {
          return false, 0, 0;
        }
        var b, k := Unescape(args, j);
        if k == 0 {
          return false, 0, 0;
        }
        ghost var was := buf[..out];
        buf[out] := b;
        assert buf[..out + 1] == was + [b] && args[j..][k - j..] == args[k..];
        out, j := out + 1, k;
      }
      if j == |args| {
        return false, 0, 0;
      }
      assert args[j..][1..] == args[j + 1..];
      ok, j := true, j + 1;
    }

    /** str_parse_string: the string is left in buf, terminated. */
    method Parse(args: Text) returns (ok: bool, n: nat, rest: Text)
      requires buf.Length == 256
      modifies buf
      ensures ok == ParseString(args).0.Some? && rest == ParseString(args).1
      ensures ok ==> n <= MAX && ParseString(args).0 == Some(buf[..n]) && buf[n] == 0
    {
      hide Quoted;
      var i := Spaces(args, 0);
      assert args[0..] == args;
      if i == |args| {
        return false, 0, args;
      }
      ghost var whole := Word(args[i..], []);
      var j: nat, out: nat := i, 0;
      while j < |args| && args[j] != SPACE
        invariant i <= j <= |args| && out <= MAX
        invariant Word(args[j..], buf[..out]) == whole
        decreases |args| - j
      {
        if args[j] == QUOTE {
          var good;
          assert args[j..][1..] == args[j + 1..];
          good, j, out := InQuotes(args, j + 1, out);
          if !good {
            return false, 0, args[i..];
          }
        } else {
          if out >= MAX {
            return false, 0, args[i..];
          }
          ghost var was := buf[..out];
          buf[out] := args[j];
          assert buf[..out + 1] == was + [args[j]] && args[j..][1..] == args[j + 1..];
          out, j := out + 1, j + 1;
        }
      }
      assert whole == Some(Read(buf[..out], args[j..]));
      ghost var got := buf[..out];
      var k := Spaces(args, j);
      buf[out] := 0;
      assert buf[..out] == got;
      return true, out, args[k..];
    }
  }

  // ---------------- the quoter ----------------

  function QuotedByte(b: u8): (s: Text)
    ensures 0 < |s| && s[0] != QUOTE
  {
    if b == QUOTE || b == BACKSLASH then [BACKSLASH, b]
    else if 0x20 <= b < 0x7F then [b]
    else [BACKSLASH, 48 + b / 64, 48 + b / 8 % 8, 48 + b % 8]
  }

  function QuotedBytes(a: Text): Text {
    if a == [] then [] else QuotedByte(a[0]) + QuotedBytes(a[1..])
  }

  function Quote(a: Text): Text { [QUOTE] + QuotedBytes(a) + [QUOTE] }

  method QuoteArg(a: Text) returns (out: Text)
    ensures out == Quote(a)
  {
    hide QuotedByte;
    out := [QUOTE];
    for i := 0 to |a|
      invariant out + QuotedBytes(a[i..]) == [QUOTE] + QuotedBytes(a)
    {
      assert a[i..][1..] == a[i + 1..];
      out := out + QuotedByte(a[i]);
    }
    assert out + [] == out;
    out := out + [QUOTE];
  }

  // ---------------- reading back ----------------

  predicate Plain(a: Text) { forall i :: 0 <= i < |a| ==> a[i] != 0 }

  predicate Fits(a: Text) { |a| <= MAX && Plain(a) }

  /** Three octal digits are taken whatever follows them. */
  lemma OctalBack(b: u8, e: Text)
    ensures OctalRun([48 + b / 8 % 8, 48 + b % 8] + e, b / 64, 2) == (2, b)
  {
    var s := [48 + b / 8 % 8, 48 + b % 8] + e;
    assert s[1..] == [48 + b % 8] + e;
    assert b == b / 64 * 64 + b / 8 % 8 * 8 + b % 8;
    assert OctalRun(s[2..], b, 0) == (0, b);
    assert OctalRun(s[1..], b / 8, 1) == (1, b);
  }

  /** A quoted byte is read back as itself, and a zero is refused, whatever follows. */
  lemma ByteBack(b: u8, e: Text)
    ensures Escape(QuotedByte(b) + e) == if b == 0 then None else Some(Char(b, |QuotedByte(b)|))
  {
    hide OctalRun, HexRun;
    var s := QuotedByte(b) + e;
    if b != QUOTE && b != BACKSLASH && !(0x20 <= b < 0x7F) {
      OctalBack(b, e);
      assert s[2..] == [48 + b / 8 % 8, 48 + b % 8] + e;
    }
  }

  lemma QuotedStep(s: Text, out: Text, f: Text)
    requires s != [] && s[0] != QUOTE && |out| < MAX
    requires Escape(s).Some? ==> s[Escape(s).value.len..] == f
    ensures Quoted(s, out) == if Escape(s).None? then None else Quoted(f, out + [Escape(s).value.b])
  {
    hide Escape;
  }

  lemma {:induction false} BytesBack(a: Text, out: Text, e: Text)
    requires |out| <= MAX
    ensures Quoted(QuotedBytes(a) + [QUOTE] + e, out) ==
            if |out| + |a| <= MAX && Plain(a) then Some(Read(out + a, e)) else None
    decreases |a|
  {
    hide Escape, QuotedByte;
    var s := QuotedBytes(a) + [QUOTE] + e;
    if a == [] {
      assert s == [QUOTE] + e && s[1..] == e;
      assert out + a == out;
    } else {
      var f := QuotedBytes(a[1..]) + [QUOTE] + e;
      assert s == QuotedByte(a[0]) + f;
      ByteBack(a[0], f);
      if |out| < MAX {
        QuotedStep(s, out, f);
        BytesBack(a[1..], out + [a[0]], e);
        hide Quoted, QuotedBytes;
        assert out + [a[0]] + a[1..] == out + a;
        assert Plain(a) <==> a[0] != 0 && Plain(a[1..]);
      }
    }
  }

  /** An argument that is quoted is read back exactly when it has at most 255 bytes and no zero. */
  lemma QuoteBack(a: Text, e: Text)
    requires e == [] || e[0] == SPACE
    ensures ParseString(Quote(a) + e).0 == (if Fits(a) then Some(a) else None)
    ensures Fits(a) ==> ParseString(Quote(a) + e).1 == Trim(e)
  {
    hide Quoted, QuotedBytes;
    var s := Quote(a) + e;
    var q := QuotedBytes(a) + [QUOTE] + e;
    Reassociated(QuotedBytes(a), e);
    assert s[1..] == q && Trim(s) == s;
    BytesBack(a, [], e);
    assert [] + a == a;
    assert Word(e, a) == Some(Read(a, e));
  }

  lemma Reassociated(x: Text, e: Text)
    ensures [QUOTE] + x + [QUOTE] + e == [QUOTE] + (x + [QUOTE] + e)
  {
  }

  // ---------------- lines of arguments ----------------

  /** Part of an argument as it is written: as it is, or between quotes. */
  datatype Piece = Bare(text: Text) | InQuotes(text: Text)

  /** Text as it is has no zero, space or quote. */
  predicate PieceOk(p: Piece) { p.Bare? ==> forall i :: 0 <= i < |p.text| ==> p.text[i] !in {0, 32, 34} }

  function Written(arg: seq<Piece>): Text {
    if arg == [] then [] else (if arg[0].Bare? then arg[0].text else Quote(arg[0].text)) + Written(arg[1..])
  }

  /** What an argument stands for: its pieces' texts, one after the other. */
  function Meant(arg: seq<Piece>): Text {
    if arg == [] then [] else arg[0].text + Meant(arg[1..])
  }

  /** An argument has something written of it. */
  predicate ArgOk(arg: seq<Piece>) { (forall i :: 0 <= i < |arg| ==> PieceOk(arg[i])) && Written(arg) != [] }

  lemma {:induction false} BareBack(t: Text, out: Text, e: Text)
    requires |out| <= MAX && forall i :: 0 <= i < |t| ==> t[i] !in {0, 32, 34}
    ensures Word(t + e, out) == if |out| + |t| <= MAX then Word(e, out + t) else None
    decreases |t|
  {
    if t == [] {
      assert t + e == e && out + t == out;
    } else {
      hide Quoted;
      assert t[0] !in {0, 32, 34};
      assert (t + e)[0] == t[0] && (t + e)[1..] == t[1..] + e;
      if |out| < MAX {
        BareBack(t[1..], out + [t[0]], e);
        assert out + [t[0]] + t[1..] == out + t;
      }
    }
  }

  lemma {:induction false} PiecesBack(arg: seq<Piece>, out: Text, e: Text)
    requires |out| <= MAX && (forall i :: 0 <= i < |arg| ==> PieceOk(arg[i])) && (e == [] || e[0] == SPACE)
    ensures Word(Written(arg) + e, out) ==
            if |out| + |Meant(arg)| <= MAX && Plain(Meant(arg)) then Some(Read(out + Meant(arg), e)) else None
    decreases |arg|
  {
    if arg == [] {
      assert Written(arg) + e == e && out + Meant(arg) == out;
    } else {
      hide Word, Written, Meant, Plain, Quote;
      PieceSplit(arg);
      PieceBack(arg[0], out, Written(arg[1..]) + e);
      JoinPlain(arg[0].text, Meant(arg[1..]));
      Grouped(Written([arg[0]]), Written(arg[1..]), e);
      Grouped(out, arg[0].text, Meant(arg[1..]));
      if |out| + |arg[0].text| <= MAX {
        PiecesBack(arg[1..], out + arg[0].text, e);
      }
    }
  }

  lemma Grouped(a: Text, b: Text, c: Text)
    ensures a + b + c == a + (b + c)
  {
  }

  lemma PieceSplit(arg: seq<Piece>)
    requires arg != []
    ensures Written(arg) == Written([arg[0]]) + Written(arg[1..]) && Meant(arg) == arg[0].text + Meant(arg[1..])
  {
    assert [arg[0]][1..] == [];
    var w := if arg[0].Bare? then arg[0].text else Quote(arg[0].text);
    assert w + Written([]) == w;
  }

  /** One piece off the front of an argument. */
  lemma PieceBack(p: Piece, out: Text, rest: Text)
    requires |out| <= MAX && PieceOk(p)
    ensures Word(Written([p]) + rest, out) ==
            if |out| + |p.text| <= MAX && Plain(p.text) then Word(rest, out + p.text) else None
  {
    hide Word, Quote;
    var w := if p.Bare? then p.text else Quote(p.text);
    assert [p][1..] == [] && w + Written([]) == w;
    assert Written([p]) == w;
    if p.Bare? {
      BareBack(p.text, out, rest);
      BarePlain(p);
    } else {
      QuoteInWord(p.text, out, rest);
    }
  }

  lemma BarePlain(p: Piece)
    requires PieceOk(p) && p.Bare?
    ensures Plain(p.text)
  {
  }

  lemma JoinPlain(a: Text, b: Text)
    ensures Plain(a + b) <==> Plain(a) && Plain(b)
  {
    assert forall i :: 0 <= i < |a| ==> a[i] == (a + b)[i];
    assert forall i :: 0 <= i < |b| ==> b[i] == (a + b)[|a| + i];
  }

  /** A quoted piece adds its text to the argument's. */
  lemma QuoteInWord(a: Text, out: Text, e: Text)
    requires |out| <= MAX
    ensures Word(Quote(a) + e, out) == if |out| + |a| <= MAX && Plain(a) then Word(e, out + a) else None
  {
    hide Quoted, QuotedBytes;
    var s := Quote(a) + e;
    Reassociated(QuotedBytes(a), e);
    assert s[1..] == QuotedBytes(a) + [QUOTE] + e;
    BytesBack(a, out, e);
  }

  /** One argument off the front of a line. */
  lemma ArgBack(arg: seq<Piece>, e: Text)
    requires ArgOk(arg) && (e == [] || e[0] == SPACE)
    ensures ParseString(Written(arg) + e).0 == (if Fits(Meant(arg)) then Some(Meant(arg)) else None)
    ensures Fits(Meant(arg)) ==> ParseString(Written(arg) + e).1 == Trim(e)
    ensures Trim(Written(arg) + e) == Written(arg) + e
  {
    WrittenStarts(arg);
    PiecesBack(arg, [], e);
    hide Word, Written, Meant;
    assert [] + Meant(arg) == Meant(arg);
    assert (Written(arg) + e)[0] == Written(arg)[0];
  }

  lemma {:induction false} WrittenStarts(arg: seq<Piece>)
    requires ArgOk(arg)
    ensures Written(arg)[0] != SPACE
    decreases |arg|
  {
    assert PieceOk(arg[0]);
    if arg[0] == Bare([]) {
      assert Written(arg) == Written(arg[1..]);
      WrittenStarts(arg[1..]);
    }
  }

  /** Arguments with a space between each and the next. */
  function Join(args: seq<seq<Piece>>): Text {
    if args == [] then [] else Written(args[0]) + Tail(args[1..])
  }

  function Tail(args: seq<seq<Piece>>): Text {
    if args == [] then [] else [SPACE] + Written(args[0]) + Tail(args[1..])
  }

  /** Arguments read off a line until nothing but spaces is left. */
  function ParseAll(s: Text): Option<seq<Text>>
    decreases |s|
  {
    if Trim(s) == [] then Some([])
    else
      var r := ParseString(s);
      if r.0.None? then None
      else
        match ParseAll(r.1)
        case None => None
        case Some(more) => Some([r.0.value] + more)
  }

  function Meanings(args: seq<seq<Piece>>): (r: seq<Text>)
    ensures |r| == |args| && forall i :: 0 <= i < |args| ==> r[i] == Meant(args[i])
  {
    if args == [] then [] else [Meant(args[0])] + Meanings(args[1..])
  }

  predicate AllFit(args: seq<Text>) { forall i :: 0 <= i < |args| ==> Fits(args[i]) }

  lemma TailStarts(args: seq<seq<Piece>>)
    ensures Tail(args) == [] || Tail(args)[0] == SPACE
  {
  }

  lemma TailTrims(args: seq<seq<Piece>>)
    requires args != [] && ArgOk(args[0])
    ensures Trim(Tail(args)) == Written(args[0]) + Tail(args[1..])
  {
    var s := Written(args[0]) + Tail(args[1..]);
    TailStarts(args[1..]);
    assert Tail(args) == [SPACE] + s;
    assert Tail(args)[1..] == s;
    ArgBack(args[0], Tail(args[1..]));
  }

  lemma {:induction false} TailBack(args: seq<seq<Piece>>)
    requires forall i :: 0 <= i < |args| ==> ArgOk(args[i])
    ensures ParseAll(Trim(Tail(args))) == if AllFit(Meanings(args)) then Some(Meanings(args)) else None
    decreases |args|
  {
    if args != [] {
      hide ParseAll, Tail, Trim, AllFit, Written, Meanings, ArgOk;
      TailBack(args[1..]);
      TailStarts(args[1..]);
      TailTrims(args);
      LineStep(args);
    }
  }

  lemma LineStep(args: seq<seq<Piece>>)
    requires args != [] && ArgOk(args[0])
    requires ParseAll(Trim(Tail(args[1..]))) == if AllFit(Meanings(args[1..])) then Some(Meanings(args[1..])) else None
    requires Tail(args[1..]) == [] || Tail(args[1..])[0] == SPACE
    ensures ParseAll(Written(args[0]) + Tail(args[1..])) == if AllFit(Meanings(args)) then Some(Meanings(args))
      else None
  {
    assert Written(args[0]) + Tail(args[1..]) != [];
    hide ParseString, Fits, Written, Meant, Tail, Trim, ArgOk, AllFit;
    ArgBack(args[0], Tail(args[1..]));
    FitFirst(Meant(args[0]), Meanings(args[1..]));
  }

  lemma FitFirst(x: Text, more: seq<Text>)
    ensures AllFit([x] + more) <==> Fits(x) && AllFit(more)
  {
    hide Fits;
    var all := [x] + more;
    assert all[0] == x && forall i :: 0 <= i < |more| ==> more[i] == all[i + 1];
  }

  /** Any line of arguments, each written as it is, quoted, or in pieces of both, is read back as the same
      list exactly when each has at most 255 bytes and no zero. */
  lemma LineBack(args: seq<seq<Piece>>)
    requires forall i :: 0 <= i < |args| ==> ArgOk(args[i])
    ensures ParseAll(Join(args)) == if AllFit(Meanings(args)) then Some(Meanings(args)) else None
  {
    if args != [] {
      TailBack(args[1..]);
      TailStarts(args[1..]);
      LineStep(args);
    }
  }

  /** Arguments quoted by the console. */
  function Quotes(args: seq<Text>): (r: seq<seq<Piece>>)
    ensures |r| == |args| && forall i :: 0 <= i < |args| ==> r[i] == [InQuotes(args[i])]
  {
    seq(|args|, i requires 0 <= i < |args| => [InQuotes(args[i])])
  }

  /** Whatever quotes, backslashes, spaces, digits and high bytes the console's arguments hold. */
  lemma QuotedLineBack(args: seq<Text>)
    ensures forall i :: 0 <= i < |args| ==> Written(Quotes(args)[i]) == Quote(args[i])
    ensures ParseAll(Join(Quotes(args))) ==
            if forall i :: 0 <= i < |args| ==> |args[i]| <= 255 && 0 !in args[i] then Some(args) else None
  {
    hide Join, ParseAll;
    var q := Quotes(args);
    forall i | 0 <= i < |args|
      ensures Written(q[i]) == Quote(args[i]) && ArgOk(q[i]) && Meant(q[i]) == args[i]
      ensures Fits(args[i]) <==> |args[i]| <= 255 && 0 !in args[i]
    {
      assert q[i][1..] == [] && Written([]) == [] && Meant([]) == [];
      assert Quote(args[i]) + [] == Quote(args[i]) && args[i] + [] == args[i];
    }
    assert Meanings(q) == args;
    LineBack(q);
  }

  // ---------------- escapes ----------------

  lemma LetterEscapes(e: Text)
    ensures Escape([92, 110] + e) == Some(Char(10, 2)) && Escape([92, 116] + e) == Some(Char(9, 2))
    ensures Escape([92, 114] + e) == Some(Char(13, 2)) && Escape([92, 97] + e) == Some(Char(7, 2))
    ensures Escape([92, 98] + e) == Some(Char(8, 2)) && Escape([92, 102] + e) == Some(Char(12, 2))
    ensures Escape([92, 118] + e) == Some(Char(11, 2))
  {
  }

  /** Any other character after a backslash is itself, and so is one after none, and a backslash before
      nothing. */
  lemma OtherEscapes(c: u8, e: Text)
    ensures c !in {110, 116, 114, 97, 98, 102, 118, 120} && !(48 <= c <= 55) ==>
      Escape([92, c] + e) == Some(Char(c, 2))
    ensures c != 92 || e == [] ==> Escape([c] + e) == Some(Char(c, 1))
  {
  }

  /** Hex digits after \x, however many, stand for the low byte of their number; and are refused for 0. */
  lemma HexEscape(n: nat, w: nat, lower: bool, e: Text)
    requires n < 0x1_0000_0000 && w > 0 && (e == [] || !IsHex(e[0]))
    ensures var d := if lower then Lowered(Hex(n, w)) else Hex(n, w);
      Escape([92, 120] + d + e) == if n % 256 == 0 then None else Some(Char(n % 256, 2 + |d|))
  {
    hide HexRun, Hex;
    var h := Hex(n, w);
    HexRunBack(n, w, e);
    LoweredRun(h, e, 0);
    assert ([92, 120] + h + e)[2..] == h + e && ([92, 120] + Lowered(h) + e)[2..] == Lowered(h) + e;
    assert HexRun(e, n) == (0, n) by { NoRun(e, n); }
  }

  lemma NoRun(e: Text, n: int)
    requires 0 <= n < 0x1_0000_0000 && (e == [] || !IsHex(e[0]))
    ensures HexRun(e, n) == (0, n)
  {
  }

  lemma {:induction false} HexRunBack(n: nat, w: nat, e: Text)
    requires n < WORD
    ensures var r := HexRun(e, n); HexRun(Hex(n, w) + e, 0) == (|Hex(n, w)| + r.0, r.1)
    decreases n, w
  {
    hide HexRun, HexChar, Hex;
    HexSplit(n, w);
    if n == 0 && w == 0 {
      assert [] + e == e;
      assert HexRun(e, 0) == (0 + HexRun(e, 0).0, HexRun(e, 0).1);
    } else {
      var w' := if w == 0 then 0 else w - 1;
      var h, c := Hex(n / 16, w'), HexChar(n % 16);
      assert h + [c] + e == h + ([c] + e);
      HexRunBack(n / 16, w', [c] + e);
      HexRunStep(c, e, n / 16, n);
    }
  }

  lemma HexSplit(n: nat, w: nat)
    ensures Hex(n, w) == if n == 0 && w == 0 then [] else Hex(n / 16, if w == 0 then 0 else w - 1) + [HexChar(n % 16)]
  {
  }

  lemma HexRunStep(c: u8, e: Text, v: int, n: int)
    requires IsHex(c) && 0 <= v && 0 <= n < WORD && n == v * 16 + HexValue(c)
    ensures v < WORD
    ensures var r := HexRun(e, n); HexRun([c] + e, v) == (r.0 + 1, r.1)
  {
    assert ([c] + e)[0] == c && ([c] + e)[1..] == e;
  }

  lemma {:induction false} LoweredRun(s: Text, e: Text, v: int)
    requires 0 <= v < WORD && forall i :: 0 <= i < |s| ==> IsHex(s[i])
    ensures HexRun(Lowered(s) + e, v) == HexRun(s + e, v)
    decreases |s|
  {
    if s == [] {
      assert Lowered(s) + e == s + e;
    } else {
      assert (Lowered(s) + e)[1..] == Lowered(s[1..]) + e && (s + e)[1..] == s[1..] + e;
      assert (Lowered(s) + e)[0] == Lowered(s)[0] && (s + e)[0] == s[0];
      LoweredRun(s[1..], e, (v * 16 + HexValue(s[0])) % 0x1_0000_0000);
    }
  }

  /** One, two or three octal digits after a backslash, as far as there are any. */
  lemma OctalEscape(a: u8, b: u8, c: u8, e: Text)
    requires a < 8 && b < 8 && c < 8
    ensures var v := Octal(a, b, c) % 256;
      Escape([92, 48 + a, 48 + b, 48 + c] + e) == if v == 0 then None else Some(Char(v, 4))
    ensures e == [] || !(48 <= e[0] <= 55) ==>
      Escape([92, 48 + a, 48 + b] + e) == if a == 0 && b == 0 then None else Some(Char(8 * a + b, 3))
    ensures e == [] || !(48 <= e[0] <= 55) ==>
      Escape([92, 48 + a] + e) == if a == 0 then None else Some(Char(a, 2))
  {
    hide *;
    ThreeOctal(a, b, c, e);
    if e == [] || !(48 <= e[0] <= 55) {
      TwoOctal(a, b, e);
      OneOctal(a, e);
    }
  }

  function Octal(a: int, b: int, c: int): int { 64 * a + 8 * b + c }

  lemma ThreeOctal(a: u8, b: u8, c: u8, e: Text)
    requires a < 8 && b < 8 && c < 8
    ensures var v := Octal(a, b, c) % 256;
      Escape([92, 48 + a, 48 + b, 48 + c] + e) == if v == 0 then None else Some(Char(v, 4))
  {
    hide HexRun;
    var s, x, y := [92, 48 + a, 48 + b, 48 + c] + e, [48 + b, 48 + c] + e, [48 + c] + e;
    assert s[2..] == x && x[1..] == y && y[1..] == e;
    assert OctalRun(e, Octal(a, b, c), 0) == (0, Octal(a, b, c));
    assert OctalRun(y, 8 * a + b, 1) == (1, Octal(a, b, c));
    assert OctalRun(x, a, 2) == (2, Octal(a, b, c));
    hide OctalRun;
  }

  lemma TwoOctal(a: u8, b: u8, e: Text)
    requires a < 8 && b < 8 && (e == [] || !(48 <= e[0] <= 55))
    ensures Escape([92, 48 + a, 48 + b] + e) == if a == 0 && b == 0 then None else Some(Char(8 * a + b, 3))
  {
    hide HexRun;
    var s, x := [92, 48 + a, 48 + b] + e, [48 + b] + e;
    assert s[2..] == x && x[1..] == e;
    assert OctalRun(e, 8 * a + b, 1) == (0, 8 * a + b);
    assert OctalRun(x, a, 2) == (1, 8 * a + b);
    hide OctalRun;
  }

  lemma OneOctal(a: u8, e: Text)
    requires a < 8 && (e == [] || !(48 <= e[0] <= 55))
    ensures Escape([92, 48 + a] + e) == if a == 0 then None else Some(Char(a, 2))
  {
    hide HexRun;
    assert ([92, 48 + a] + e)[2..] == e;
    assert OctalRun(e, a, 2) == (0, a);
    hide OctalRun;
  }
}
