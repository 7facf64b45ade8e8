/** The packer's own reader (add_rom_file of tools/rp6502.py): what it takes from an image, and that it
    takes from a packed one what was packed. */
module RomReader {
  import opened Common
  import opened MonitorText
  import opened RomText
  import opened RomLoader
  import opened RomImage
  import opened RomRoundTrip

  /** What Python's str calls white space, of ASCII. */
  predicate IsSpace(c: u8) { 9 <= c <= 13 || 28 <= c <= 32 }

  /** A line as the reader takes it: ASCII, and one line. */
  predicate Plain(s: Text) { forall i :: 0 <= i < |s| ==> s[i] < 128 && s[i] != LF }

  function SkipSpace(s: Text): (r: Text)
    ensures |r| <= |s| && (r != [] ==> !IsSpace(r[0])) && (Plain(s) ==> Plain(r))
  {
    if s != [] && IsSpace(s[0]) then SkipSpace(s[1..]) else s
  }

  /** How long the word at the front of s is. */
  function WordLength(s: Text): (n: nat)
    ensures n <= |s| && (n < |s| ==> IsSpace(s[n])) && (forall i :: 0 <= i < n ==> !IsSpace(s[i]))
  {
    if s == [] || IsSpace(s[0]) then 0 else 1 + WordLength(s[1..])
  }

  function StripSpace(s: Text): (r: Text)
    ensures r <= s && (r != [] ==> !IsSpace(r[|r| - 1]))
  {
    if s != [] && IsSpace(s[|s| - 1]) then StripSpace(s[..|s| - 1]) else s
  }

  /** rstrip("\r\n") */
  function StripLine(s: Text): (r: Text)
    ensures r <= s
  {
    if s != [] && (s[|s| - 1] == CR || s[|s| - 1] == LF) then StripLine(s[..|s| - 1]) else s
  }

  /** strip() */
  function Stripped(s: Text): (r: Text)
    ensures (Plain(s) ==> Plain(r)) && (r != [] ==> !IsSpace(r[0]) && !IsSpace(r[|r| - 1]))
  {
    StripSpace(SkipSpace(s))
  }

  function AllHex(s: Text): bool { forall i :: 0 <= i < |s| ==> IsHex(s[i]) }

  /** The number digits spell in a base, on top of value; nothing when one is not a digit of it. */
  function Spelled(s: Text, base: int, value: nat): (r: Option<nat>)
    requires base in {2, 10, 16}
    decreases |s|
  {
    if s == [] then Some(value)
    else if !IsHex(s[0]) || HexValue(s[0]) >= base then None
    else Spelled(s[1..], base, (if base == 16 then 16 * value else if base == 10 then 10 * value else 2 * value)
      + HexValue(s[0]))
  }

  /** parse_int: $ is 0x. */
  function ParseInt(w: Text): Option<nat> {
    IntOf(if w != [] && w[0] == DOLLAR then [48, 120] + w[1..] else w)
  }

  /** 0x for hex, else what int(s, 0) makes of hex digits: 0b for binary, and decimal with no leading zeros but
      of zero. */
  function IntOf(s: Text): Option<nat> {
    if |s| > 2 && s[0] == 48 && s[1] == 120 then Spelled(s[2..], 16, 0)
    else if s == [] || !AllHex(s) then None
    else if |s| > 2 && s[0] == 48 && (s[1] == 98 || s[1] == 66) then Spelled(s[2..], 2, 0)
    else if |s| > 1 && s[0] == 48 && !(forall i :: 0 <= i < |s| ==> s[i] == 48) then None
    else Spelled(s, 10, 0)
  }

  /** What an image adds to a ROM. */
  datatype Item = Bytes(chunk: Chunk) | Named(asset: Asset)

  /** The items read up to the end, or up to what is no image. */
  datatype Reading = Reading(items: seq<Item>, ok: bool)

  function Then(first: seq<Item>, rest: Reading): Reading { Reading(first + rest.items, rest.ok) }

  /** Classic memory chunks: a header line of three numbers, then the bytes. */
  function ReadChunks(s: seq<u8>, crc: Crc): Reading
    decreases |s|
  {
    if s == [] then Reading([], true)
    else
      var n := LineEnd(s);
      if n == |s| || !IsAscii(s[..n]) then Reading([], false) else
      var h := ReadHeader(StripSpace(s[..n]));
      if h.None? then Reading([], false) else
      var r := h.value;
      var at := n + 1;
      if at + r.len > |s| || crc(s[at..at + r.len]) != r.crc then Reading([], false)
      else Then([Bytes(Chunk(r.addr, s[at..at + r.len]))], ReadChunks(s[at + r.len..], crc))
  }

  datatype Header = Header(addr: nat, len: nat, crc: nat)

  function ReadHeader(line: Text): Option<Header> {
    var a := WordLength(line);
    var r1 := SkipSpace(line[a..]);
    var b := WordLength(r1);
    var r2 := SkipSpace(r1[b..]);
    if a == 0 || b == 0 || r2 == [] || WordLength(r2) != |r2| then None
    else
      var x, y, z := ParseInt(line[..a]), ParseInt(r1[..b]), ParseInt(r2);
      if x.None? || y.None? || z.None? then None else Some(Header(x.value, y.value, z.value))
  }

  /** An entry's header: its length, and its name when it has one. */
  function ReadEntry(head: Text): Option<(nat, Text)> {
    if |head| < 2 || head[0] != HASH || head[1] != MORE then None
    else
      var t := SkipSpace(head[2..]);
      var a := WordLength(t);
      var r1 := SkipSpace(t[a..]);
      if a == 0 || r1 == [] then None
      else
        var len := ParseInt(t[..a]);
        if len.None? then None else Some((len.value, Stripped(r1[WordLength(r1)..])))
  }

  /** An entry's items: its bytes under its name, or with none the chunks they are. */
  function ItemsOf(name: Text, body: seq<u8>, crc: Crc): Reading {
    if name == [] then ReadChunks(body, crc) else Reading([Named(Asset(name, body))], true)
  }

  /** The entries from here on, to the end or an empty line. */
  function ReadEntries(s: seq<u8>, crc: Crc): Reading
    decreases |s|
  {
    if s == [] then Reading([], true)
    else
      var n := LineEnd(s);
      var at := if n < |s| then n + 1 else n;
      if !IsAscii(s[..n]) then Reading([], false) else
      var head := StripLine(s[..n]);
      if head == [] then Reading([], true) else
      var e := ReadEntry(head);
      if e.None? || at + e.value.0 > |s| then Reading([], false) else
      var r := ItemsOf(e.value.1, s[at..at + e.value.0], crc);
      if r.ok then Then(r.items, ReadEntries(s[at + e.value.0..], crc)) else r
  }

  // ---------------- numbers back ----------------

  lemma {:induction false} HexSpelled(n: nat, w: nat, e: Text)
    ensures Spelled(Hex(n, w) + e, 16, 0) == Spelled(e, 16, n)
    decreases n, w
  {
    if n == 0 && w == 0 {
      assert Hex(n, w) + e == e;
    } else {
      var w', c := if w == 0 then 0 else w - 1, HexChar(n % 16);
      HexSpelled(n / 16, w', [c] + e);
      assert Hex(n, w) + e == Hex(n / 16, w') + ([c] + e);
      assert ([c] + e)[1..] == e;
    }
  }

  lemma HexInt(n: nat, w: nat)
    requires w > 0
    ensures ParseInt([DOLLAR] + Hex(n, w)) == Some(n)
  {
    var s := [DOLLAR] + Hex(n, w);
    assert s[1..] == Hex(n, w);
    assert ([48, 120] + s[1..])[2..] == Hex(n, w);
    HexSpelled(n, w, []);
    assert Hex(n, w) + [] == Hex(n, w);
    hide Spelled;
  }

  lemma HexWord(n: nat, w: nat, e: Text)
    requires e == [] || IsSpace(e[0])
    ensures WordLength([DOLLAR] + Hex(n, w) + e) == 1 + |Hex(n, w)|
    ensures ([DOLLAR] + Hex(n, w) + e)[1 + |Hex(n, w)|..] == e
    ensures ([DOLLAR] + Hex(n, w) + e)[..1 + |Hex(n, w)|] == [DOLLAR] + Hex(n, w)
    ensures SkipSpace([DOLLAR] + Hex(n, w) + e) == [DOLLAR] + Hex(n, w) + e
  {
    var x := [DOLLAR] + Hex(n, w);
    assert forall i :: 0 <= i < |x| ==> !IsSpace(x[i]);
    WordEnds(x, e);
  }

  lemma {:induction false} WordEnds(x: Text, e: Text)
    requires (forall i :: 0 <= i < |x| ==> !IsSpace(x[i])) && (e == [] || IsSpace(e[0]))
    ensures WordLength(x + e) == |x|
    decreases |x|
  {
    if x == [] {
      assert x + e == e;
    } else {
      assert (x + e)[1..] == x[1..] + e;
      WordEnds(x[1..], e);
    }
  }

  // ---------------- chunks back ----------------

  lemma HeaderBack(c: Chunk, n: nat)
    ensures ReadHeader(ChunkHead(c, n)) == Some(Header(c.addr, |c.data|, n))
  {
    hide Hex, ParseInt, WordLength, SkipSpace;
    var z3 := [DOLLAR] + Hex(n, 8);
    var z2 := [DOLLAR] + Hex(|c.data|, 3) + ([SPACE] + z3);
    var z1 := [DOLLAR] + Hex(c.addr, 4) + ([SPACE] + z2);
    assert [SPACE, DOLLAR] + Hex(n, 8) == [SPACE] + z3;
    assert [SPACE, DOLLAR] + Hex(|c.data|, 3) + ([SPACE] + z3) == [SPACE] + z2;
    assert ChunkHead(c, n) == z1;
    HexWord(c.addr, 4, [SPACE] + z2);
    HexWord(|c.data|, 3, [SPACE] + z3);
    assert z3 + [] == z3;
    HexWord(n, 8, []);
    SpaceSkipped(z2);
    SpaceSkipped(z3);
    HexInt(c.addr, 4);
    HexInt(|c.data|, 3);
    HexInt(n, 8);
  }

  lemma SpaceSkipped(s: Text)
    ensures SkipSpace([SPACE] + s) == SkipSpace(s)
  {
    assert ([SPACE] + s)[1..] == s;
  }

  lemma StripCr(s: Text)
    requires s != [] && !IsSpace(s[|s| - 1])
    ensures StripSpace(s + [CR]) == s
  {
    assert (s + [CR])[..|s|] == s;
  }

  function Laid(cs: seq<Chunk>): seq<Item> { if cs == [] then [] else [Bytes(cs[0])] + Laid(cs[1..]) }

  lemma ChunkLine(c: Chunk, n: nat)
    ensures var s := ChunkHead(c, n); s != [] && !IsSpace(s[|s| - 1]) && Plain(s + [CR])
  {
    var h := Hex(n, 8);
    assert ChunkHead(c, n)[|ChunkHead(c, n)| - 1] == h[|h| - 1];
    PlainHex(c.addr, 4);
    PlainHex(|c.data|, 3);
    PlainHex(n, 8);
    hide Hex;
  }

  lemma PlainHex(n: nat, w: nat)
    ensures Plain(Hex(n, w))
  {
  }

  lemma PlainLine(s: Text)
    requires Plain(s + [CR])
    ensures OneLine(s) && IsAscii(s + [CR])
  {
    assert forall i :: 0 <= i < |s| ==> (s + [CR])[i] == s[i];
  }

  /** The chunks of an image are read back as they are. */
  lemma {:induction false} ChunksBack(cs: seq<Chunk>, crc: Crc)
    requires CrcOk(crc)
    ensures ReadChunks(ChunksBytes(cs, crc), crc) == Reading(Laid(cs), true)
    decreases |cs|
  {
    if cs != [] {
      ChunksBack(cs[1..], crc);
      OneChunkBack(cs[0], ChunksBytes(cs[1..], crc), crc);
      hide ReadChunks, ChunkBytes;
    }
  }

  lemma OneChunkBack(c: Chunk, e: seq<u8>, crc: Crc)
    requires CrcOk(crc)
    ensures ReadChunks(ChunkBytes(c, crc) + e, crc) == Then([Bytes(c)], ReadChunks(e, crc))
  {
    hide ReadHeader, ChunkHead, StripSpace, CrcOk, Plain, IsAscii;
    var n := Checksum(crc, c.data);
    CrcWord(crc, c.data);
    var head := ChunkHead(c, n);
    ChunkLine(c, n);
    PlainLine(head);
    HeaderBack(c, n);
    StripCr(head);
    var s := ChunkBytes(c, crc) + e;
    assert s == head + [CR, LF] + (c.data + e);
    LineEnds(head, c.data + e);
    assert s[..|head| + 1] == head + [CR];
    assert s[|head| + 2..] == c.data + e;
    assert s[|head| + 2..|head| + 2 + |c.data|] == c.data && s[|head| + 2 + |c.data|..] == e;
  }

  lemma CrcWord(crc: Crc, x: seq<u8>)
    requires CrcOk(crc)
    ensures 0 <= crc(x) < WORD && Checksum(crc, x) == crc(x)
  {
  }

  // ---------------- entries back ----------------

  /** A header line's words, and what its tag says once the white space around it is gone. */
  lemma EntryWords(len: nat, n: nat, x: Text)
    requires x == [] || x[0] == SPACE
    ensures ReadEntry(HeadNumbers(len, n) + x) == Some((len, Stripped(x)))
  {
    hide Hex, ParseInt, WordLength, SkipSpace, Stripped;
    var r1 := [DOLLAR] + Hex(n, 8) + x;
    var t := [DOLLAR] + Hex(len, 8) + ([SPACE] + r1);
    assert (HeadNumbers(len, n) + x)[2..] == t;
    HexWord(len, 8, [SPACE] + r1);
    HexWord(n, 8, x);
    SpaceSkipped(r1);
    HexInt(len, 8);
  }

  lemma NumbersLine(len: nat, n: nat)
    ensures var s := HeadNumbers(len, n); |s| > 2 && !IsSpace(s[|s| - 1]) && Plain(s)
  {
    PlainHex(len, 8);
    PlainHex(n, 8);
    var h := Hex(n, 8);
    hide Hex;
    assert HeadNumbers(len, n)[|HeadNumbers(len, n)| - 1] == h[|h| - 1];
  }

  /** The line end stripped from a text that is none, and more. */
  lemma {:induction false} StripTail(s: Text, x: Text)
    requires s != [] && !IsSpace(s[|s| - 1])
    ensures StripLine(s + x) == s + StripLine(x)
    decreases |x|
  {
    if x != [] {
      var y, c := x[..|x| - 1], x[|x| - 1];
      assert s + x == (s + y) + [c] && (s + x)[..|s + x| - 1] == s + y;
      if c == CR || c == LF {
        StripTail(s, y);
      }
    } else {
      assert s + x == s;
    }
  }

  lemma {:induction false} SkipMore(x: Text, c: u8)
    requires IsSpace(c)
    ensures SkipSpace(x + [c]) == if SkipSpace(x) == [] then [] else SkipSpace(x) + [c]
    decreases |x|
  {
    if x == [] {
      assert x + [c] == [c];
    } else {
      assert (x + [c])[0] == x[0] && (x + [c])[1..] == x[1..] + [c];
      if IsSpace(x[0]) {
        SkipMore(x[1..], c);
      }
    }
  }

  lemma StrippedMore(x: Text, c: u8)
    requires IsSpace(c)
    ensures Stripped(x + [c]) == Stripped(x)
  {
    SkipMore(x, c);
    hide SkipSpace;
    var y := SkipSpace(x);
    assert (y + [c])[..|y + [c]| - 1] == y;
  }

  /** Stripping the line end first makes no difference to a name. */
  lemma {:induction false} StrippedLine(x: Text)
    ensures Stripped(StripLine(x)) == Stripped(x)
    decreases |x|
  {
    hide Stripped;
    if x != [] && (x[|x| - 1] == CR || x[|x| - 1] == LF) {
      var y := x[..|x| - 1];
      StrippedLine(y);
      StrippedMore(y, x[|x| - 1]);
      assert x == y + [x[|x| - 1]];
    }
  }

  lemma StrippedTag(name: Option<Text>)
    ensures Stripped(Tag(name)) == if name.Some? then Stripped(name.value) else []
  {
    if name.Some? {
      SpaceSkipped(name.value);
    }
  }

  /** Some name that a header line holds whole: ASCII, and no newline in it. */
  predicate Writable(name: Option<Text>) { name.Some? ==> Plain(name.value) }

  /** The name an entry is read back under. */
  function NameBack(name: Option<Text>): Text { if name.Some? then Stripped(name.value) else [] }

  lemma HeadLine(len: nat, n: nat, name: Option<Text>)
    requires Writable(name)
    ensures var s := EntryHead(len, n, name);
      && OneLine(s) && IsAscii(s + [CR]) && StripLine(s + [CR]) != []
      && ReadEntry(StripLine(s + [CR])) == Some((len, NameBack(name)))
  {
    hide HeadNumbers, ReadEntry, Stripped, StripLine, StripSpace, EntryHead;
    var b, x := HeadNumbers(len, n), Tag(name) + [CR];
    HeadParts(len, n, name);
    assert b + Tag(name) + [CR] == b + x;
    NumbersLine(len, n);
    StripTail(b, x);
    TagStarts(name);
    EntryWords(len, n, StripLine(x));
    StrippedLine(x);
    StrippedMore(Tag(name), CR);
    StrippedTag(name);
    assert Plain(EntryHead(len, n, name) + [CR]);
    PlainLine(EntryHead(len, n, name));
  }

  lemma TagStarts(name: Option<Text>)
    ensures var x := StripLine(Tag(name) + [CR]); x == [] || x[0] == SPACE
  {
    if name.None? {
      assert Tag(name) + [CR] == [CR] && [CR][..0] == [];
    }
  }

  /** One entry more, whatever its name and its data hold: it comes back under its name stripped, and with
      nothing left of that as chunks. */
  lemma OneEntryBack(x: Entry, e: seq<u8>, crc: Crc)
    requires Writable(x.name)
    ensures var r := ItemsOf(NameBack(x.name), x.data, crc);
      ReadEntries(EntryBytes(x, crc) + e, crc) == if r.ok then Then(r.items, ReadEntries(e, crc)) else r
  {
    hide ReadEntry, EntryHead, StripLine, ReadChunks, Writable, NameBack, IsAscii, ItemsOf;
    var n := Checksum(crc, x.data);
    var head := EntryHead(|x.data|, n, x.name);
    HeadLine(|x.data|, n, x.name);
    var s := EntryBytes(x, crc) + e;
    assert s == head + [CR, LF] + (x.data + e);
    LineEnds(head, x.data + e);
    assert s[..|head| + 1] == head + [CR];
    assert s[|head| + 2..] == x.data + e;
    assert s[|head| + 2..|head| + 2 + |x.data|] == x.data && s[|head| + 2 + |x.data|..] == e;
  }

  /** A name the reader gives back: ASCII, some of it, and neither a newline nor white space around it. */
  predicate PlainName(name: Text) {
    name != [] && Plain(name) && !IsSpace(name[0]) && !IsSpace(name[|name| - 1])
  }

  predicate NamesPlain(xs: seq<Asset>) { forall i :: 0 <= i < |xs| ==> PlainName(xs[i].name) }

  lemma StrippedPlain(name: Text)
    requires Plain(name)
    ensures Stripped(name) == name && name != [] <==> PlainName(name)
  {
  }

  function NamedAll(xs: seq<Asset>): seq<Item> { if xs == [] then [] else [Named(xs[0])] + NamedAll(xs[1..]) }

  lemma {:induction false} AssetsBack(xs: seq<Asset>, crc: Crc)
    requires NamesPlain(xs)
    ensures ReadEntries(EntriesBytes(Entries(xs), crc), crc) == Reading(NamedAll(xs), true)
    decreases |xs|
  {
    hide Stripped, EntryBytes, ReadEntries;
    if xs != [] {
      AssetsBack(xs[1..], crc);
      assert PlainName(xs[0].name);
      StrippedPlain(xs[0].name);
      assert Entries(xs)[1..] == Entries(xs[1..]);
      OneEntryBack(EntryOf(xs[0]), EntriesBytes(Entries(xs[1..]), crc), crc);
    } else {
      NoneRead(crc);
    }
  }

  lemma NoneRead(crc: Crc)
    ensures ReadEntries([], crc) == Reading([], true)
  {
  }

  /** A shebang naming rp6502, in any case. */
  predicate NamesRom(s: Text) { |s| >= 2 && s[0] == HASH && s[1] == BANG && exists i :: 2 <= i < |s| && NamedAt(s, i) }

  /** What an image adds, all of it or up to what is no image. */
  function ReadImage(img: seq<u8>, crc: Crc): Reading {
    var n := LineEnd(img);
    if !NamesRom(img[..n]) then Reading([], false) else ReadEntries(img[if n < |img| then n + 1 else n..], crc)
  }

  /** A packed image is read as its chunks and then its assets' entries. */
  lemma ImageRead(cs: seq<Chunk>, xs: seq<Asset>, crc: Crc)
    requires CrcOk(crc)
    ensures ReadImage(ImageBytes(cs, xs, crc), crc) == Then(Laid(cs), ReadEntries(EntriesBytes(Entries(xs), crc), crc))
  {
    hide EntryBytes, ChunksBytes, EntriesBytes, ReadEntries;
    var img, dir := ImageBytes(cs, xs, crc), EntriesBytes(Directory(cs, xs, crc), crc);
    assert img == MAGIC + [CR, LF] + dir;
    MagicLine(dir);
    DirectoryBytes(cs, xs, crc);
    if cs != [] {
      ChunksBack(cs, crc);
      OneEntryBack(Entry(None, ChunksBytes(cs, crc)), EntriesBytes(Entries(xs), crc), crc);
    } else {
      assert [] + EntriesBytes(Entries(xs), crc) == EntriesBytes(Entries(xs), crc);
      var r := ReadEntries(dir, crc);
      assert Laid(cs) + r.items == r.items;
    }
  }

  /** A packed image holds what was packed: every chunk, then every asset. */
  lemma ImageBack(cs: seq<Chunk>, xs: seq<Asset>, crc: Crc)
    requires CrcOk(crc) && NamesPlain(xs)
    ensures ReadImage(ImageBytes(cs, xs, crc), crc) == Reading(Laid(cs) + NamedAll(xs), true)
  {
    hide ImageBytes, ReadImage, ReadEntries, EntriesBytes, PlainName;
    ImageRead(cs, xs, crc);
    AssetsBack(xs, crc);
  }

  lemma MagicNamed()
    ensures NamedAt(MAGIC + [CR], 2)
  {
    assert (MAGIC + [CR])[2..8] == [82, 80, 54, 53, 48, 50];
  }

  lemma MagicLine(dir: seq<u8>)
    ensures var img := MAGIC + [CR, LF] + dir;
      LineEnd(img) == 9 && NamesRom(img[..9]) && img[10..] == dir
  {
    hide NamedAt, LineEnd, Inline, ShebangOk;
    var img := MAGIC + [CR, LF] + dir;
    MagicIsShebang();
    assert OneLine(MAGIC);
    LineEnds(MAGIC, dir);
    assert img[..9] == MAGIC + [CR];
    MagicNamed();
  }

  // ---------------- names read ----------------

  predicate ItemsPlain(xs: seq<Item>) { forall i :: 0 <= i < |xs| && xs[i].Named? ==> PlainName(xs[i].asset.name) }

  lemma {:induction false} ChunksNameNone(s: seq<u8>, crc: Crc)
    ensures forall x :: x in ReadChunks(s, crc).items ==> x.Bytes?
    decreases |s|
  {
    hide ReadHeader, IsAscii, StripSpace;
    if s != [] {
      var n := LineEnd(s);
      var h := ReadHeader(StripSpace(s[..n]));
      if n < |s| && h.Some? && n + 1 + h.value.len <= |s| {
        ChunksNameNone(s[n + 1 + h.value.len..], crc);
      }
    }
  }

  /** Every name the reader gives an asset is plain. */
  lemma {:induction false} NamesRead(s: seq<u8>, crc: Crc)
    ensures ItemsPlain(ReadEntries(s, crc).items)
    decreases |s|
  {
    hide ReadEntry, IsAscii, PlainName, ReadChunks;
    if s != [] {
      var n := LineEnd(s);
      var at := if n < |s| then n + 1 else n;
      var head := StripLine(s[..n]);
      var e := ReadEntry(head);
      if IsAscii(s[..n]) && head != [] && e.Some? && at + e.value.0 <= |s| {
        NamesRead(s[at + e.value.0..], crc);
        NameRead(s[..n], head);
        var body := s[at..at + e.value.0];
        ChunksNameNone(body, crc);
        var r := ItemsOf(e.value.1, body, crc);
        assert forall x :: x in r.items && x.Named? ==> PlainName(x.asset.name);
        assert ItemsPlain(r.items);
      }
    }
  }

  lemma NameRead(line: Text, head: Text)
    requires IsAscii(line) && OneLine(line) && head <= line && ReadEntry(head).Some?
    ensures ReadEntry(head).value.1 == [] || PlainName(ReadEntry(head).value.1)
  {
    hide ParseInt, WordLength, Stripped, SkipSpace;
    assert Plain(head);
    var t := SkipSpace(head[2..]);
    var r1 := SkipSpace(t[WordLength(t)..]);
    assert Plain(r1);
    assert Plain(r1[WordLength(r1)..]);
  }

  // ---------------- adding what was read ----------------

  datatype Contents = Contents(data: Sparse, assets: seq<Asset>)

  /** A memory with a chunk's bytes over it. */
  function Overlaid(data: Sparse, c: Chunk): Sparse {
    data + map a | c.addr <= a < c.addr + |c.data| && Within(c, a) :: c.data[a - c.addr]
  }

  predicate Within(c: Chunk, a: int) { c.addr <= a < c.addr + |c.data| }

  /** A chunk may not land on bytes that are there, and an asset not on a name that is. */
  function Added(s: Contents, x: Item, replace: set<Text>): Option<Contents> {
    match x
    case Bytes(c) =>
      if c.addr + |c.data| <= TOP && (forall a :: c.addr <= a < c.addr + |c.data| ==> a !in s.data)
      then Some(s.(data := Overlaid(s.data, c))) else None
    case Named(a) =>
      var p := Placed(s.assets, a, replace);
      if p.None? then None else Some(s.(assets := p.value))
  }

  /** Items added one after the other, up to the first that may not be; and whether all were. */
  function AddedAll(s: Contents, xs: seq<Item>, replace: set<Text>): (Contents, bool)
    decreases |xs|
  {
    if xs == [] then (s, true)
    else
      match Added(s, xs[0], replace)
      case None => (s, false)
      case Some(t) => AddedAll(t, xs[1..], replace)
  }

  /** A ROM after an image was added to it, and whether all of it was: a refused one leaves what it read
      before. */
  function Gained(s: Contents, img: seq<u8>, crc: Crc, replace: set<Text>): (Contents, bool) {
    var read := ReadImage(img, crc);
    var r := AddedAll(s, read.items, replace);
    (r.0, r.1 && read.ok)
  }

  /** An image added to a ROM (add_rom_file). A refusal leaves what came before it, and may leave addresses
      marked that have no byte. */
  method AddRomFile(rom: Rom, img: seq<u8>) returns (ok: bool)
    requires rom.Valid() && rom.Whole()
    modifies rom`data, rom`alloc, rom`assets
    ensures rom.Valid() && (ok ==> rom.Whole())
    ensures (Contents(rom.data, rom.assets), ok) == Gained(Contents(old(rom.data), old(rom.assets)), img, rom.crc,
      rom.replace)
  {
    hide ReadImage, Added;
    var read := ReadImage(img, rom.crc);
    var items := read.items;
    ghost var whole := AddedAll(Contents(rom.data, rom.assets), items, rom.replace);
    assert items[0..] == items;
    for i := 0 to |items|
      invariant rom.Valid() && rom.Whole() && AddedAll(Contents(rom.data, rom.assets), items[i..], rom.replace) == whole
    {
      assert items[i..][1..] == items[i + 1..];
      var good := AddItem(rom, items[i]);
      if !good {
        return false;
      }
    }
    return read.ok;
  }

  method AddItem(rom: Rom, x: Item) returns (ok: bool)
    requires rom.Valid() && rom.Whole()
    modifies rom`data, rom`alloc, rom`assets
    ensures rom.Valid() && (ok ==> rom.Whole())
    ensures var was := Contents(old(rom.data), old(rom.assets));
      && ok == Added(was, x, rom.replace).Some?
      && Contents(rom.data, rom.assets) == if ok then Added(was, x, rom.replace).value else was
  {
    match x
    case Bytes(c) =>
      ghost var was := rom.data;
      ok := rom.AddBinaryData(c.data, c.addr);
      assert ok ==> rom.data == Overlaid(was, c);
    case Named(a) =>
      ok := rom.AddAsset(a.name, a.data);
  }

  ghost predicate SameBytes(m: Sparse, n: Sparse) {
    (forall a :: a in m <==> a in n) && forall a :: a in m ==> m[a] == n[a]
  }

  /** Every chunk's bytes over a memory. */
  function OverlaidAll(data: Sparse, cs: seq<Chunk>): Sparse
    decreases |cs|
  {
    if cs == [] then data else OverlaidAll(Overlaid(data, cs[0]), cs[1..])
  }

  /** The next chunk of a memory goes on what came before it. */
  lemma OneLaid(s: Contents, c: Chunk, data: Sparse, from: int, replace: set<Text>)
    requires from <= c.addr && Holds(c, data) && (forall a :: from <= a < c.addr ==> a !in data)
    requires c.addr + |c.data| <= TOP
    requires forall a :: a in s.data <==> a in data && a < from
    requires forall a :: a in s.data ==> s.data[a] == data[a]
    ensures var d := Overlaid(s.data, c);
      && Added(s, Bytes(c), replace) == Some(s.(data := d))
      && (forall a :: a in d <==> a in data && a < c.addr + |c.data|) && forall a :: a in d ==> d[a] == data[a]
  {
    hide ChunkOk, Longest;
  }

  lemma {:induction false} LaidAdds(s: Contents, cs: seq<Chunk>, rest: seq<Item>, data: Sparse, from: int,
        replace: set<Text>)
    requires Packs(cs, data, from, TOP) && (forall a :: a in data ==> 0 <= a < TOP)
    requires forall a :: a in s.data <==> a in data && a < from
    requires forall a :: a in s.data ==> s.data[a] == data[a]
    ensures AddedAll(s, Laid(cs) + rest, replace) == AddedAll(s.(data := OverlaidAll(s.data, cs)), rest, replace)
    ensures SameBytes(OverlaidAll(s.data, cs), data)
    decreases |cs|
  {
    if cs == [] {
      assert Laid(cs) + rest == rest;
    } else {
      var c := cs[0];
      PacksPlaces(cs, data, from, TOP);
      assert Holds(c, data);
      var t := s.(data := Overlaid(s.data, c));
      assert (Laid(cs) + rest)[1..] == Laid(cs[1..]) + rest;
      hide Added, Holds, Overlaid;
      OneLaid(s, c, data, from, replace);
      LaidAdds(t, cs[1..], rest, data, c.addr + |c.data|, replace);
    }
  }

  lemma {:induction false} NamedAdds(s: Contents, xs: seq<Asset>, replace: set<Text>)
    requires Distinct(s.assets + xs)
    ensures AddedAll(s, NamedAll(xs), replace) == (s.(assets := s.assets + xs), true)
    decreases |xs|
  {
    if xs != [] {
      var t := s.(assets := s.assets + [xs[0]]);
      NewName(s.assets, xs);
      assert t.assets + xs[1..] == s.assets + xs;
      hide Distinct;
      NamedAdds(t, xs[1..], replace);
    } else {
      assert s.assets + xs == s.assets;
    }
  }

  lemma NewName(ys: seq<Asset>, xs: seq<Asset>)
    requires xs != [] && Distinct(ys + xs)
    ensures IndexOf(ys, xs[0].name) == |ys|
  {
    assert (ys + xs)[|ys|] == xs[0];
    assert forall k :: 0 <= k < |ys| ==> (ys + xs)[k] == ys[k];
  }

  /** Assets added from an image are plainly named, and no two alike. */
  lemma {:induction false} AddedNames(s: Contents, xs: seq<Item>, replace: set<Text>)
    requires ItemsPlain(xs) && NamesPlain(s.assets) && Distinct(s.assets)
    ensures NamesPlain(AddedAll(s, xs, replace).0.assets) && Distinct(AddedAll(s, xs, replace).0.assets)
    decreases |xs|
  {
    hide PlainName, Distinct;
    if xs != [] && Added(s, xs[0], replace).Some? {
      if xs[0].Named? {
        PlacedDistinct(s.assets, xs[0].asset, replace);
      }
      AddedNames(Added(s, xs[0], replace).value, xs[1..], replace);
    }
  }

  /** Added to an empty ROM, the image gives this memory and these assets. */
  ghost predicate GivesBack(img: seq<u8>, data: Sparse, xs: seq<Asset>, crc: Crc, replace: set<Text>) {
    var r := Gained(Contents(map[], []), img, crc, replace);
    r.1 && SameBytes(r.0.data, data) && r.0.assets == xs
  }

  /** Adding a packed image to an empty ROM gives back the same memory and the same assets exactly when every
      name is plain and no two are alike. */
  lemma RomBack(cs: seq<Chunk>, xs: seq<Asset>, data: Sparse, crc: Crc, replace: set<Text>)
    requires CrcOk(crc) && Packs(cs, data, 0, TOP) && (forall a :: a in data ==> 0 <= a < TOP)
    ensures GivesBack(ImageBytes(cs, xs, crc), data, xs, crc, replace) <==> NamesPlain(xs) && Distinct(xs)
  {
    hide ImageBytes, ReadImage, Packs, ReadEntries, EntriesBytes, PlainName, Added;
    var empty, img := Contents(map[], []), ImageBytes(cs, xs, crc);
    var e := ReadEntries(EntriesBytes(Entries(xs), crc), crc);
    ImageRead(cs, xs, crc);
    if NamesPlain(xs) && Distinct(xs) {
      ImageBack(cs, xs, crc);
      LaidAdds(empty, cs, NamedAll(xs), data, 0, replace);
      assert [] + xs == xs;
      NamedAdds(Contents(OverlaidAll(map[], cs), []), xs, replace);
    } else {
      LaidAdds(empty, cs, e.items, data, 0, replace);
      NamesRead(EntriesBytes(Entries(xs), crc), crc);
      AddedNames(Contents(OverlaidAll(map[], cs), []), e.items, replace);
    }
  }

  /** What becomes of an asset whose name has white space around it: it comes back under another name. */
  lemma NameChanged(name: Text, bytes: seq<u8>, crc: Crc, replace: set<Text>)
    requires CrcOk(crc) && Plain(name) && Stripped(name) != [] && Stripped(name) != name
    ensures var img := ImageBytes([], [Asset(name, bytes)], crc);
      && Gained(Contents(map[], []), img, crc, replace) == (Contents(map[], [Asset(Stripped(name), bytes)]), true)
      && !GivesBack(img, map[], [Asset(name, bytes)], crc, replace)
  {
    hide ImageBytes, ReadImage, ReadEntries, EntriesBytes, Stripped;
    OneAssetRead(name, bytes, crc);
    OneAdded(Asset(Stripped(name), bytes), replace);
  }

  lemma OneAdded(a: Asset, replace: set<Text>)
    ensures AddedAll(Contents(map[], []), [Named(a)], replace) == (Contents(map[], [a]), true)
  {
    assert [Named(a)][1..] == [];
    var none: seq<Asset> := [];
    assert IndexOf(none, a.name) == 0 && none + [a] == [a];
    assert Placed(none, a, replace) == Some([a]);
    assert Added(Contents(map[], []), Named(a), replace) == Some(Contents(map[], [a]));
    hide Added;
  }

  lemma OneAssetRead(name: Text, bytes: seq<u8>, crc: Crc)
    requires CrcOk(crc) && Plain(name)
    ensures ReadImage(ImageBytes([], [Asset(name, bytes)], crc), crc) == ItemsOf(Stripped(name), bytes, crc)
  {
    hide ImageBytes, ReadImage, ReadEntries, EntryBytes, Stripped, ItemsOf;
    var xs := [Asset(name, bytes)];
    var r := ItemsOf(Stripped(name), bytes, crc);
    ImageRead([], xs, crc);
    assert Entries(xs)[1..] == [];
    OneEntryBack(EntryOf(xs[0]), [], crc);
    assert EntriesBytes(Entries(xs), crc) == EntryBytes(EntryOf(xs[0]), crc) + [];
    NoneRead(crc);
    assert [] + r.items == r.items + [] == r.items;
  }

  /** And of one with no name, or nothing but white space: its bytes are read as the memory's, and here
      another memory's chunks come back where an asset was. */
  lemma NameLost(name: Text, cs: seq<Chunk>, data: Sparse, crc: Crc, replace: set<Text>)
    requires CrcOk(crc) && Plain(name) && Stripped(name) == []
    requires Packs(cs, data, 0, TOP) && forall a :: a in data ==> 0 <= a < TOP
    ensures var img := ImageBytes([], [Asset(name, ChunksBytes(cs, crc))], crc);
      GivesBack(img, data, [], crc, replace)
        && !GivesBack(img, map[], [Asset(name, ChunksBytes(cs, crc))], crc, replace)
  {
    hide ImageBytes, ReadImage, Stripped, ChunksBytes, Packs, Added;
    OneAssetRead(name, ChunksBytes(cs, crc), crc);
    ChunksBack(cs, crc);
    assert Laid(cs) + [] == Laid(cs);
    LaidAdds(Contents(map[], []), cs, [], data, 0, replace);
  }

  /** A ROM packed and the image added to a new one: the same ROM exactly when every name is plain. */
  method Reread(rom: Rom, again: set<Text>) returns (packed: bool, ok: bool, copy: Rom)
    requires rom.Valid() && Distinct(rom.assets) && CrcOk(rom.crc)
    ensures fresh(copy) && packed == (rom.Whole() && NamesAscii(rom.assets))
    ensures packed ==>
      ((ok && SameBytes(copy.data, rom.data) && copy.assets == rom.assets) <==> NamesPlain(rom.assets))
  {
    hide Packs, Gained, NamesPlain, ImageBytes, SameBytes;
    copy := new Rom(rom.crc, again);
    var img;
    ghost var cs;
    packed, img, cs := rom.ToBytes();
    ok := false;
    if packed {
      RomBack(cs, rom.assets, rom.data, rom.crc, again);
      ok := AddRomFile(copy, img);
    }
  }

  // ---------------- what is refused ----------------

  /** A chunk is read exactly when all its bytes are there and have the checksum its header says. */
  lemma ChunkChecked(c: Chunk, n: nat, e: seq<u8>, crc: Crc)
    ensures ReadChunks(ChunkHead(c, n) + [CR, LF] + c.data + e, crc) ==
            if crc(c.data) == n then Then([Bytes(c)], ReadChunks(e, crc)) else Reading([], false)
    ensures forall k :: 0 <= k < |c.data| ==>
      ReadChunks(ChunkHead(c, n) + [CR, LF] + c.data[..k], crc) == Reading([], false)
  {
    hide ReadHeader, ChunkHead, StripSpace, CrcOk, Plain, IsAscii;
    var head := ChunkHead(c, n);
    ChunkLine(c, n);
    PlainLine(head);
    HeaderBack(c, n);
    StripCr(head);
    var s := head + [CR, LF] + c.data + e;
    assert s == head + [CR, LF] + (c.data + e);
    LineEnds(head, c.data + e);
    assert s[..|head| + 1] == head + [CR];
    assert s[|head| + 2..|head| + 2 + |c.data|] == c.data && s[|head| + 2 + |c.data|..] == e;
    forall k | 0 <= k < |c.data|
      ensures ReadChunks(head + [CR, LF] + c.data[..k], crc) == Reading([], false)
    {
      var t := head + [CR, LF] + c.data[..k];
      LineEnds(head, c.data[..k]);
      assert t[..|head| + 1] == head + [CR];
    }
  }

  /** An image is refused whose first line is no shebang, or with an entry that is cut short; and nothing is
      read past an empty line. */
  lemma EntryChecked(x: Entry, k: nat, e: seq<u8>, crc: Crc)
    requires Writable(x.name) && k < |x.data|
    ensures ReadEntries(EntryHead(|x.data|, Checksum(crc, x.data), x.name) + [CR, LF] + x.data[..k], crc)
      == Reading([], false)
    ensures ReadEntries([LF] + e, crc) == ReadEntries([CR, LF] + e, crc) == Reading([], true)
  {
    hide ReadEntry, EntryHead, ReadChunks, Writable, NameBack, ItemsOf;
    var n := Checksum(crc, x.data);
    var head := EntryHead(|x.data|, n, x.name);
    HeadLine(|x.data|, n, x.name);
    var s := head + [CR, LF] + x.data[..k];
    LineEnds(head, x.data[..k]);
    assert s[..|head| + 1] == head + [CR];
    LineEnds([], e);
    assert [] + [CR, LF] + e == [CR, LF] + e;
    assert ([CR, LF] + e)[..1] == [CR] && ([LF] + e)[..0] == [];
    assert StripLine([CR]) == [] by { assert [CR][..0] == []; }
  }

  lemma ShebangChecked(line: Text, e: seq<u8>, crc: Crc)
    requires OneLine(line)
    ensures ReadImage(line + [CR, LF] + e, crc) ==
            if |line| >= 2 && line[0] == 35 && line[1] == 33
              && (exists i :: 2 <= i < |line| && RomLoader.Spelled(line, i))
            then ReadEntries(e, crc) else Reading([], false)
  {
    hide ReadEntries, LineEnd;
    var img := line + [CR, LF] + e;
    LineEnds(line, e);
    assert img[..|line| + 1] == line + [CR] && img[|line| + 2..] == e;
    forall i | 0 <= i <= |line|
      ensures NamedAt(line + [CR], i) <==> i < |line| && RomLoader.Spelled(line, i)
    {
      var t := line + [CR];
      if i + 6 <= |t| {
        assert t[i..i + 6] == [t[i], t[i + 1], t[i + 2], t[i + 3], t[i + 4], t[i + 5]];
      }
    }
  }

  /** What the packer's numbers may be: decimal with no zero in front, and hex after $ or 0x in either case. */
  lemma {:induction false} IntBack(n: nat, w: nat)
    requires w > 0
    ensures ParseInt(Dec(n)) == Some(n)
    ensures ParseInt([36] + Hex(n, w)) == Some(n) && ParseInt([48, 120] + Hex(n, w)) == Some(n)
    ensures ParseInt([36] + Lowered(Hex(n, w))) == Some(n)
    ensures n > 0 ==> ParseInt([48] + Dec(n)) == None
    ensures ParseInt([]) == None && ParseInt([36]) == None
  {
    hide Hex, Dec, Lowered;
    DecInt(n);
    HexInt(n, w);
    HexInt(0, 1);
    LoweredInt(n, w);
    assert ([36] + Hex(n, w))[1..] == Hex(n, w);
    assert [36][1..] == [] && [48, 120] + [] == [48, 120];
  }

  lemma DecInt(n: nat)
    ensures ParseInt(Dec(n)) == Some(n)
    ensures n > 0 ==> ParseInt([48] + Dec(n)) == None
  {
    DecSpelled(n, []);
    DecStarts(n);
    assert Dec(n) + [] == Dec(n);
    hide Dec, Spelled;
    var d := Dec(n);
    assert AllHex(d) && |d| > 0;
    var s := [48] + d;
    assert IsDigit(d[0]) && s[0] == 48 && s[1] == d[0];
    assert AllHex(s) by { assert forall i :: 0 < i < |s| ==> s[i] == d[i - 1]; }
    if n > 0 {
      ZeroFirst(s);
    }
  }

  lemma ZeroFirst(s: Text)
    requires |s| > 1 && s[0] == 48 && 48 < s[1] <= 57 && AllHex(s)
    ensures ParseInt(s) == None
  {
    hide Spelled, AllHex;
  }

  lemma {:induction false} DecStarts(n: nat)
    ensures Dec(n)[0] == 48 <==> n == 0
    ensures n == 0 ==> |Dec(n)| == 1
    decreases n
  {
    if n >= 10 {
      DecStarts(n / 10);
    }
  }

  lemma {:induction false} DecSpelled(n: nat, e: Text)
    ensures Spelled(Dec(n) + e, 10, 0) == Spelled(e, 10, n)
    decreases n
  {
    var c: u8 := 48 + n % 10;
    assert ([c] + e)[0] == c && ([c] + e)[1..] == e;
    if n < 10 {
      assert Dec(n) + e == [c] + e;
    } else {
      assert Dec(n) + e == Dec(n / 10) + ([c] + e);
      DecSpelled(n / 10, [c] + e);
    }
  }

  lemma LoweredInt(n: nat, w: nat)
    requires w > 0
    ensures ParseInt([DOLLAR] + Lowered(Hex(n, w))) == Some(n)
  {
    var h := Lowered(Hex(n, w));
    assert ([DOLLAR] + h)[1..] == h && ([48, 120] + h)[2..] == h;
    HexSpelled(n, w, []);
    assert Hex(n, w) + [] == Hex(n, w);
    LoweredSpelled(Hex(n, w), 0);
    hide Spelled, Hex, Lowered;
  }

  lemma {:induction false} LoweredSpelled(s: Text, v: nat)
    requires AllHex(s)
    ensures Spelled(Lowered(s), 16, v) == Spelled(s, 16, v)
    decreases |s|
  {
    if s != [] {
      assert Lowered(s)[1..] == Lowered(s[1..]);
      LoweredSpelled(s[1..], 16 * v + HexValue(s[0]));
    }
  }

  /** A chunk is added where every byte is free and below $1000000, and changes no other; an asset as a ROM
      takes it. */
  lemma AddedMeans(s: Contents, c: Chunk, replace: set<Text>)
    ensures Added(s, Bytes(c), replace).Some? <==>
            c.addr + |c.data| <= 0x1000000 && forall a :: c.addr <= a < c.addr + |c.data| ==> a !in s.data
    ensures Added(s, Bytes(c), replace).Some? ==>
      var t := Added(s, Bytes(c), replace).value;
      && t.assets == s.assets
      && (forall a :: c.addr <= a < c.addr + |c.data| ==> a in t.data && t.data[a] == c.data[a - c.addr])
      && (forall a :: a in s.data ==> a in t.data && t.data[a] == s.data[a])
      && forall a :: a in t.data ==> a in s.data || c.addr <= a < c.addr + |c.data|
  {
  }

  // ---------------- words and names ----------------

  /** The white space, and the names that have none around them. */
  lemma PlainNameMeans(name: Text, c: u8)
    ensures IsSpace(c) <==> c in {9, 10, 11, 12, 13, 28, 29, 30, 31, 32}
    ensures PlainName(name) <==>
            && |name| > 0 && (forall i :: 0 <= i < |name| ==> name[i] < 128 && name[i] != 10)
            && !IsSpace(name[0]) && !IsSpace(name[|name| - 1])
  {
  }

  /** A word of a header line: some of it, and no white space in it. */
  predicate IsWord(w: Text) { w != [] && forall i :: 0 <= i < |w| ==> !IsSpace(w[i]) }

  lemma WordOff(w: Text, e: Text)
    requires IsWord(w) && (e == [] || IsSpace(e[0]))
    ensures WordLength(w + e) == |w| && (w + e)[..|w|] == w && (w + e)[|w|..] == e && SkipSpace(w + e) == w + e
  {
    WordEnds(w, e);
    assert (w + e)[0] == w[0];
  }

  lemma NoWord()
    ensures SkipSpace([]) == [] && WordLength([]) == 0
  {
  }

  /** A chunk's header is three words, each a number, and nothing else is. */
  lemma HeaderWords(a: Text, b: Text, c: Text, d: Text)
    requires IsWord(a) && IsWord(b) && IsWord(c) && IsWord(d)
    ensures ReadHeader(a + ([32] + (b + ([32] + c)))) ==
            if ParseInt(a).Some? && ParseInt(b).Some? && ParseInt(c).Some? then
              Some(Header(ParseInt(a).value, ParseInt(b).value, ParseInt(c).value))
            else None
    ensures ReadHeader([]) == None && ReadHeader(a) == None && ReadHeader(a + ([32] + b)) == None
    ensures ReadHeader(a + ([32] + (b + ([32] + (c + ([32] + d)))))) == None
  {
    hide ParseInt, WordLength, SkipSpace, IsWord;
    NoWord();
    OneWord(a);
    TwoWords(a, b);
    ThirdWord(a, b, c, []);
    ThirdWord(a, b, c, [32] + d);
    assert c + [] == c;
    assert |c + ([32] + d)| > |c|;
  }

  lemma OneWord(a: Text)
    requires IsWord(a)
    ensures ReadHeader(a) == None
  {
    hide ParseInt, WordLength, SkipSpace, IsWord;
    NoWord();
    WordOff(a, []);
    assert a + [] == a;
  }

  lemma TwoWords(a: Text, b: Text)
    requires IsWord(a) && IsWord(b)
    ensures ReadHeader(a + ([32] + b)) == None
  {
    hide ParseInt, WordLength, SkipSpace, IsWord;
    NoWord();
    WordOff(a, [32] + b);
    SpaceSkipped(b);
    WordOff(b, []);
    assert b + [] == b;
  }

  /** What the reader makes of three words and what comes right after them. */
  lemma ThirdWord(a: Text, b: Text, c: Text, e: Text)
    requires IsWord(a) && IsWord(b) && IsWord(c) && (e == [] || IsSpace(e[0]))
    ensures ReadHeader(a + ([32] + (b + ([32] + (c + e))))) ==
            if e == [] && ParseInt(a).Some? && ParseInt(b).Some? && ParseInt(c).Some? then
              Some(Header(ParseInt(a).value, ParseInt(b).value, ParseInt(c).value))
            else None
  {
    hide ParseInt, WordLength, SkipSpace, IsWord;
    WordOff(a, [32] + (b + ([32] + (c + e))));
    SpaceSkipped(b + ([32] + (c + e)));
    WordOff(b, [32] + (c + e));
    SpaceSkipped(c + e);
    WordOff(c, e);
    assert c + [] == c;
    assert a != [] && b != [] && c != [] by { Wordy(a); Wordy(b); Wordy(c); }
    assert ([32] + (b + ([32] + (c + e))))[0] == 32;
  }

  lemma Wordy(w: Text)
    requires IsWord(w)
    ensures w != []
  {
  }

  /** An entry's header is "#>", a number, a word and what is left as its name; a line without them is none. */
  lemma EntryHeader(a: Text, b: Text, x: Text, other: Text)
    requires IsWord(a) && IsWord(b) && (x == [] || IsSpace(x[0]))
    requires |other| < 2 || other[0] != 35 || other[1] != 62
    ensures ReadEntry([35, 62] + (a + ([32] + (b + x)))) ==
            if ParseInt(a).Some? then Some((ParseInt(a).value, Stripped(x))) else None
    ensures ReadEntry([35, 62]) == None && ReadEntry([35, 62] + a) == None && ReadEntry(other) == None
  {
    hide ParseInt, WordLength, SkipSpace, IsWord, Stripped;
    NoWord();
    var t := a + ([32] + (b + x));
    assert ([35, 62] + t)[2..] == t && ([35, 62] + a)[2..] == a && [35, 62][2..] == [];
    WordOff(a, [32] + (b + x));
    SpaceSkipped(b + x);
    WordOff(b, x);
    WordOff(a, []);
    assert a + [] == a;
    assert a != [] && b != [] by { Wordy(a); Wordy(b); }
  }

  /** Nothing is read past a line that is no header, has a character that is not ASCII or, of a chunk, no end. */
  lemma LineRefused(line: Text, e: seq<u8>, crc: Crc)
    requires OneLine(line)
    ensures line != [] ==> ReadChunks(line, crc) == Reading([], false)
    ensures (exists i :: 0 <= i < |line| && line[i] >= 128) || ReadHeader(StripSpace(line)) == None ==>
      ReadChunks(line + [10] + e, crc) == Reading([], false)
    ensures (exists i :: 0 <= i < |line| && line[i] >= 128)
            || (StripLine(line) != [] && ReadEntry(StripLine(line)) == None) ==>
      ReadEntries(line + [10] + e, crc) == Reading([], false)
  {
    hide ReadHeader, ReadEntry, StripSpace, StripLine, ItemsOf;
    LineWhole(line, []);
    LineWhole(line, [10] + e);
    assert line + [] == line && line + [10] + e == line + ([10] + e);
    assert (line + [10] + e)[..|line|] == line && line[..|line|] == line;
    hide LineEnd;
  }

  lemma {:induction false} LineWhole(s: Text, e: seq<u8>)
    requires OneLine(s) && (e == [] || e[0] == 10)
    ensures LineEnd(s + e) == |s|
    decreases |s|
  {
    if s == [] {
      assert s + e == e;
    } else {
      assert (s + e)[1..] == s[1..] + e;
      LineWhole(s[1..], e);
    }
  }

  /** n in binary. */
  function Bin(n: nat): (s: Text)
    ensures |s| > 0 && forall i :: 0 <= i < |s| ==> 48 <= s[i] <= 49
  {
    (if n < 2 then [] else Bin(n / 2)) + [48 + n % 2]
  }

  lemma {:induction false} BinSpelled(n: nat, e: Text)
    ensures Spelled(Bin(n) + e, 2, 0) == Spelled(e, 2, n)
    decreases n
  {
    var c: u8 := 48 + n % 2;
    assert ([c] + e)[0] == c && ([c] + e)[1..] == e;
    if n < 2 {
      assert Bin(n) + e == [c] + e;
    } else {
      assert Bin(n) + e == Bin(n / 2) + ([c] + e);
      BinSpelled(n / 2, [c] + e);
    }
  }

  lemma {:induction false} ZerosSpelled(k: nat)
    ensures Spelled(seq(k, _ => 48), 10, 0) == Some(0)
    decreases k
  {
    if k > 0 {
      assert seq(k, _ => 48)[1..] == seq(k - 1, _ => 48);
      ZerosSpelled(k - 1);
    }
  }

  lemma {:induction false} LetterNone(s: Text, i: nat, v: nat)
    requires i < |s| && !IsDigit(s[i])
    ensures Spelled(s, 10, v) == None
    decreases i
  {
    if i > 0 && IsDigit(s[0]) {
      LetterNone(s[1..], i - 1, 10 * v + HexValue(s[0]));
    }
  }

  /** Python's other numbers: binary after 0b or 0B, and zeros; and a decimal one has no letter in it. */
  lemma IntOthers(n: nat, k: nat, s: Text, i: nat)
    requires k > 0 && i < |s| && !IsDigit(s[i]) && s[0] != 36 && s[0] != 48
    ensures ParseInt([48, 98] + Bin(n)) == Some(n) && ParseInt([48, 66] + Bin(n)) == Some(n)
    ensures ParseInt(seq(k, _ => 48)) == Some(0) && ParseInt(s) == None
  {
    BinSpelled(n, []);
    assert Bin(n) + [] == Bin(n);
    BinInt(Bin(n), 98);
    BinInt(Bin(n), 66);
    ZerosSpelled(k);
    ZerosInt(k);
    LetterNone(s, i, 0);
    hide Spelled, Bin;
  }

  lemma ZerosInt(k: nat)
    requires k > 0
    ensures ParseInt(seq(k, _ => 48)) == Spelled(seq(k, _ => 48), 10, 0)
  {
    hide Spelled;
  }

  lemma BinInt(d: Text, b: u8)
    requires |d| > 0 && (forall i :: 0 <= i < |d| ==> 48 <= d[i] <= 49) && b in {66, 98}
    ensures ParseInt([48, b] + d) == Spelled(d, 2, 0)
  {
    hide Spelled;
    var s := [48, b] + d;
    assert s[0] == 48 && s[1] == b && s[2..] == d;
    assert AllHex(s) by { assert forall i :: 2 <= i < |s| ==> s[i] == d[i - 2]; }
    hide AllHex;
  }

  /** A last line with no end is a line like any other, and what an entry of no bytes may be. */
  lemma LastLine(line: Text, name: Text, crc: Crc)
    requires OneLine(line) && IsAscii(line)
    ensures StripLine(line) != [] && ReadEntry(StripLine(line)) == Some((0, name)) ==>
      ReadEntries(line, crc) == ItemsOf(name, [], crc)
    ensures ReadImage(line, crc) == Reading([], NamesRom(line))
  {
    hide ReadEntry, StripLine, ItemsOf, NamesRom, IsAscii;
    LineWhole(line, []);
    assert line + [] == line && line[..|line|] == line && line[|line|..] == [];
    NoneRead(crc);
    if line != [] {
      assert line[|line|..|line| + 0] == [];
      var r := ItemsOf(name, [], crc);
      assert r.items + [] == r.items;
    }
    hide LineEnd;
  }
}
