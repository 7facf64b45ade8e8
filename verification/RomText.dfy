/** Numbers of a .rp6502 image as its packer writes them (tools/rp6502.py), read back by the monitor's
    parser (src/core/str/str.c). */
module RomText {
  import opened Common
  import opened MonitorText

  const CR: u8 := 13
  const LF: u8 := 10

  predicate IsAscii(s: Text) { forall i :: 0 <= i < |s| ==> s[i] < 128 }

  function HexChar(d: int): (c: u8)
    requires 0 <= d < 16
    ensures IsHex(c) && HexValue(c) == d && 48 <= c <= 70
  {
    if d < 10 then 48 + d else 55 + d
  }

  /** At least w upper-case digits of n. */
  function Hex(n: nat, w: nat): (s: Text)
    ensures |s| >= w && (n > 0 ==> |s| > 0) && (forall i :: 0 <= i < |s| ==> IsHex(s[i]))
    decreases n, w
  {
    if n == 0 && w == 0 then [] else Hex(n / 16, if w == 0 then 0 else w - 1) + [HexChar(n % 16)]
  }

  /** Digits of n read on top of nothing, before anything that is not one. */
  lemma {:induction false} HexDigits(n: nat, w: nat, e: Text)
    requires n < WORD
    ensures Digits(Hex(n, w) + e, 16, 0) == Digits(e, 16, n)
    decreases n, w
  {
    if n == 0 && w == 0 {
      assert Hex(n, w) + e == e;
    } else {
      var h, c := Hex(n / 16, if w == 0 then 0 else w - 1), HexChar(n % 16);
      assert Hex(n, w) + e == h + ([c] + e);
      HexDigits(n / 16, if w == 0 then 0 else w - 1, [c] + e);
      assert n == n / 16 * 16 + n % 16;
      assert ([c] + e)[1..] == e;
      assert n / 16 <= (WORD - 1 - n % 16) / 16;
    }
  }

  lemma {:induction false} DigitsMore(s: Text, e: Text, v: int)
    requires 0 <= v < WORD && Digits(s, 16, v).None?
    ensures Digits(s + e, 16, v).None?
    decreases |s|
  {
    assert (s + e)[0] == s[0] && (s + e)[1..] == s[1..] + e;
    if v <= (WORD - 1 - HexValue(s[0])) / 16 {
      DigitsMore(s[1..], e, Shifted(v, 16) + HexValue(s[0]));
    }
  }

  /** A number of more than a word overflows within its first nine digits. */
  lemma {:induction false} HexTooLong(n: nat, w: nat) returns (k: nat)
    requires n >= WORD && w <= 8
    ensures k <= |Hex(n, w)| && k <= 9 && Digits(Hex(n, w)[..k], 16, 0).None?
    decreases n
  {
    var w' := if w == 0 then 0 else w - 1;
    var h, c := Hex(n / 16, w'), HexChar(n % 16);
    assert Hex(n, w) == h + [c];
    if n / 16 >= WORD {
      k := HexTooLong(n / 16, w');
      assert Hex(n, w)[..k] == h[..k];
    } else {
      k := |Hex(n, w)|;
      HexDigits(n / 16, w', [c]);
      HexLength(n / 16, w', 8);
      assert Hex(n, w)[..k] == h + [c];
      assert n / 16 > (WORD - 1 - n % 16) / 16;
      assert Digits([c], 16, n / 16).None?;
    }
  }

  function Pow16(k: nat): nat { if k == 0 then 1 else 16 * Pow16(k - 1) }

  lemma PowWord()
    ensures Pow16(8) == WORD
  {
    assert Pow16(4) == 65536;
  }

  lemma {:induction false} HexLength(n: nat, w: nat, k: nat)
    requires n < Pow16(k)
    ensures |Hex(n, w)| <= if w > k then w else k
    decreases n, w
  {
    if n > 0 || w > 0 {
      var w' := if w == 0 then 0 else w - 1;
      if k > 0 {
        HexLength(n / 16, w', k - 1);
      } else {
        HexLength(n / 16, w', 0);
      }
    }
  }

  /** A number written $%X is read back, whatever its width. */
  lemma HexBack(n: nat, w: nat, e: Text)
    requires n < WORD && w > 0 && (e == [] || e[0] == SPACE)
    ensures ParseUint([DOLLAR] + Hex(n, w) + e) == Some(Number(n, Trim(e)))
  {
    var s := [DOLLAR] + Hex(n, w) + e;
    var body := Hex(n, w) + e;
    assert s == [DOLLAR] + body;
    assert s[1..] == body && Trim(s) == s && Prefix(s) == 1;
    HexDigits(n, w, e);
  }

  /** The same digits, each letter in lower case. */
  function Lowered(s: Text): (r: Text)
    ensures |r| == |s| && forall i :: 0 <= i < |s| ==> r[i] == if 65 <= s[i] <= 90 then s[i] + 32 else s[i]
  {
    seq(|s|, i requires 0 <= i < |s| => if 65 <= s[i] <= 90 then s[i] + 32 else s[i])
  }

  lemma {:induction false} LoweredDigits(s: Text, e: Text, v: int)
    requires 0 <= v < WORD && forall i :: 0 <= i < |s| ==> IsHex(s[i])
    ensures Digits(Lowered(s) + e, 16, v) == Digits(s + e, 16, v)
    decreases |s|
  {
    if s == [] {
      assert Lowered(s) + e == s + e;
    } else {
      assert (Lowered(s) + e)[1..] == Lowered(s[1..]) + e && (s + e)[1..] == s[1..] + e;
      assert (Lowered(s) + e)[0] == Lowered(s)[0] && (s + e)[0] == s[0];
      LoweredDigit(s[0]);
      hide HexValue;
      if v <= (WORD - 1 - HexValue(s[0])) / 16 {
        LoweredDigits(s[1..], e, Shifted(v, 16) + HexValue(s[0]));
      }
    }
  }

  lemma LoweredDigit(c: u8)
    requires IsHex(c)
    ensures var l := if 65 <= c <= 90 then c + 32 else c; IsHex(l) && HexValue(l) == HexValue(c)
  {
  }

  /** A hex number is read back after any of its prefixes, in upper case and in lower. */
  lemma HexBackAnyhow(n: nat, w: nat, prefix: Text, e: Text)
    requires n < 0x1_0000_0000 && w > 0 && (e == [] || e[0] == 32)
    requires prefix == [36] || prefix == [48, 120] || prefix == [48, 88]
    ensures ParseUint(prefix + Hex(n, w) + e) == Some(Number(n, Trim(e)))
    ensures ParseUint(prefix + Lowered(Hex(n, w)) + e) == Some(Number(n, Trim(e)))
  {
    hide Digits, ParseUint, Hex;
    var h := Hex(n, w);
    HexDigits(n, w, e);
    LoweredDigits(h, e, 0);
    NoDigit(e, n);
    Prefixed(prefix, h, e);
    Prefixed(prefix, Lowered(h), e);
  }

  lemma NoDigit(e: Text, n: int)
    requires 0 <= n < WORD && (e == [] || e[0] == 32)
    ensures Digits(e, 16, n) == Some(Number(n, e))
  {
  }

  lemma Prefixed(prefix: Text, h: Text, e: Text)
    requires prefix == [36] || prefix == [48, 120] || prefix == [48, 88]
    requires h != [] && (e == [] || e[0] == 32) && Digits(h + e, 16, 0).Some? && Digits(h + e, 16, 0).value.rest == e
    ensures ParseUint(prefix + h + e) == Some(Number(Digits(h + e, 16, 0).value.value, Trim(e)))
  {
    hide Digits;
    var s := prefix + h + e;
    assert s[|prefix|..] == h + e && s[0] == prefix[0] && (|prefix| > 1 ==> s[1] == prefix[1]);
  }
}
