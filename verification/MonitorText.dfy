/** What the monitor's parsers make of text (src/core/str/str.c): spaces, hex digits and numbers. */
module MonitorText {
  import opened Common

  type Text = seq<u8>

  const WORD := 0x1_0000_0000

  const SPACE: u8 := 32
  const DOLLAR: u8 := 36

  predicate IsDigit(c: u8) { 48 <= c <= 57 }

  predicate IsHex(c: u8) { IsDigit(c) || 65 <= c <= 70 || 97 <= c <= 102 }

  function HexValue(c: u8): (v: int)
    requires IsHex(c)
    ensures 0 <= v < 16 && (IsDigit(c) ==> v < 10)
  {
    if c <= 57 then c - 48 else if c <= 70 then c - 55 else c - 87
  }

  function Trim(s: Text): (r: Text)
    ensures |r| <= |s| && (r != [] ==> r[0] != SPACE)
  {
    if s != [] && s[0] == SPACE then Trim(s[1..]) else s
  }

  datatype Number = Number(value: int, rest: Text)

  /** The digits at the front of s, on top of value; nothing once a word overflows. */
  function Digits(s: Text, base: int, value: int): (r: Option<Number>)
    requires base == 10 || base == 16
    requires 0 <= value < WORD
    ensures r.Some? ==> 0 <= r.value.value < WORD && |r.value.rest| <= |s|
    decreases |s|
  {
    if s == [] || !(if base == 10 then IsDigit(s[0]) else IsHex(s[0])) then Some(Number(value, s))
    else if value > (WORD - 1 - HexValue(s[0])) / base then None
    else Digits(s[1..], base, Shifted(value, base) + HexValue(s[0]))
  }

  /** A digit's place up. */
  function Shifted(value: int, base: int): int { if base == 10 then value * 10 else value * 16 }

  /** How long a base's prefix is: $ or 0x for hex. */
  function Prefix(s: Text): (n: nat)
    ensures n <= |s|
  {
    if s != [] && s[0] == DOLLAR then 1
    else if |s| > 1 && s[0] == 48 && (s[1] == 120 || s[1] == 88) then 2
    else 0
  }

  /** str_parse_uint32: a number, then a space or the end, and the spaces after it. */
  function ParseUint(s: Text): (r: Option<Number>)
    ensures r.Some? ==> 0 <= r.value.value < WORD && |r.value.rest| < |s|
  {
    var t := Trim(s);
    var body := t[Prefix(t)..];
    var d := Digits(body, if Prefix(t) > 0 then 16 else 10, 0);
    if d.None? || |d.value.rest| == |body| then None
    else if d.value.rest != [] && d.value.rest[0] != SPACE then None
    else Some(Number(d.value.value, Trim(d.value.rest)))
  }

  method Spaces(s: Text, start: nat) returns (i: nat)
    requires start <= |s|
    ensures start <= i <= |s| && s[i..] == Trim(s[start..])
  {
    i := start;
    while i < |s| && s[i] == SPACE
      invariant start <= i <= |s| && Trim(s[i..]) == Trim(s[start..])
    {
      assert s[i..][1..] == s[i + 1..];
      i := i + 1;
    }
  }

  method DigitRun(s: Text, start: nat, base: int) returns (ok: bool, i: nat, value: int)
    requires start <= |s| && (base == 10 || base == 16)
    ensures ok == Digits(s[start..], base, 0).Some?
    ensures ok ==> start <= i <= |s| && Digits(s[start..], base, 0) == Some(Number(value, s[i..]))
  {
    i, value := start, 0;
    while i < |s| && (if base == 10 then IsDigit(s[i]) else IsHex(s[i]))
      invariant start <= i <= |s| && 0 <= value < WORD
      invariant Digits(s[i..], base, value) == Digits(s[start..], base, 0)
    {
      var digit := HexValue(s[i]);
      if value > (WORD - 1 - digit) / base {
        return false, 0, 0;
      }
      assert s[i..][1..] == s[i + 1..];
      value := Shifted(value, base) + digit;
      i := i + 1;
    }
    ok := true;
  }

  /** The same, as its loops find it. */
  method ParseNumber(s: Text) returns (r: Option<Number>)
    ensures r == ParseUint(s)
  {
    hide Digits;
    var start := Spaces(s, 0);
    assert s[0..] == s;
    ghost var t := s[start..];
    var prefix := 0;
    if start < |s| && s[start] == DOLLAR {
      prefix := 1;
    } else if start + 1 < |s| && s[start] == 48 && (s[start + 1] == 120 || s[start + 1] == 88) {
      prefix := 2;
    }
    assert prefix == Prefix(t);
    assert t[prefix..] == s[start + prefix..];
    var ok, i, value := DigitRun(s, start + prefix, if prefix > 0 then 16 else 10);
    if !ok || i == start + prefix || (i < |s| && s[i] != SPACE) {
      return None;
    }
    var k := Spaces(s, i);
    return Some(Number(value, s[k..]));
  }

  // ---------------- digit by digit ----------------

  /** The digits, and the letters A to F in either case; only those are hex digits. */
  lemma HexValues(c: u8)
    ensures IsHex(c) <==> 48 <= c <= 57 || 65 <= c <= 70 || 97 <= c <= 102
    ensures 48 <= c <= 57 ==> HexValue(c) == c - 48
    ensures 65 <= c <= 70 ==> HexValue(c) == c - 65 + 10 && HexValue(c + 32) == HexValue(c)
  {
  }

  /** Spaces are skipped, and nothing else is. */
  lemma {:induction false} TrimMeans(s: Text) returns (n: nat)
    ensures n <= |s| && Trim(s) == s[n..] && (forall i :: 0 <= i < n ==> s[i] == 32) && (n < |s| ==> s[n] != 32)
    decreases |s|
  {
    n := 0;
    if s != [] && s[0] == SPACE {
      n := TrimMeans(s[1..]);
      assert forall i :: 0 < i <= n ==> s[i] == s[1..][i - 1];
      n := n + 1;
    }
  }

  /** n in decimal. */
  function Dec(n: nat): (s: Text)
    ensures |s| > 0 && forall i :: 0 <= i < |s| ==> IsDigit(s[i])
  {
    (if n < 10 then [] else Dec(n / 10)) + [48 + n % 10]
  }

  lemma {:induction false} DecDigits(n: nat, e: Text)
    requires n < WORD
    ensures Digits(Dec(n) + e, 10, 0) == Digits(e, 10, n)
    decreases n
  {
    var c: u8 := 48 + n % 10;
    var more := [c] + e;
    assert more[0] == c && more[1..] == e;
    if n < 10 {
      assert Dec(n) + e == more;
    } else {
      assert Dec(n) + e == Dec(n / 10) + more;
      DecDigits(n / 10, more);
      assert n == n / 10 * 10 + n % 10;
      assert n / 10 <= (WORD - 1 - n % 10) / 10;
    }
  }

  lemma {:induction false} DecTooLong(n: nat, e: Text)
    requires n >= WORD
    ensures Digits(Dec(n) + e, 10, 0).None?
    decreases n
  {
    var c: u8 := 48 + n % 10;
    var more := [c] + e;
    assert more[0] == c && more[1..] == e;
    assert Dec(n) + e == Dec(n / 10) + more;
    if n / 10 >= WORD {
      DecTooLong(n / 10, more);
    } else {
      DecDigits(n / 10, more);
      assert n / 10 > (WORD - 1 - n % 10) / 10;
    }
  }

  /** A decimal number is read back, and refused from 2^32 on. */
  lemma DecBack(n: nat, e: Text)
    requires e == [] || e[0] == 32
    ensures ParseUint(Dec(n) + e) == if n < 0x1_0000_0000 then Some(Number(n, Trim(e))) else None
  {
    var s := Dec(n) + e;
    assert s[0] == Dec(n)[0] && (|s| > 1 && |Dec(n)| > 1 ==> s[1] == Dec(n)[1]);
    assert |s| > 1 && |Dec(n)| == 1 ==> s[1] == e[0];
    assert Trim(s) == s && Prefix(s) == 0 && s[0..] == s;
    if n < WORD {
      DecDigits(n, e);
    } else {
      DecTooLong(n, e);
    }
  }
}
