/** The ROM: drive: named assets found in the loaded image and read through windows
    (src/core/rom/asset.c). Positions are 32-bit words, and a file driver seeks below 2^31 only
    (src/osal/posix/fs.c). Names in the image are ASCII. */
module RomAsset {
  import opened Common
  import opened MonitorText
  import opened RomText
  import opened RomLoader
  import opened RomImage
  import opened RomRoundTrip

  const LINE_MAX := 512
  const OPEN_MAX := 16
  const TAB: u8 := 9

  function Upper(c: u8): u8 { if 97 <= c <= 122 then c - 32 else c }

  /** Two names alike but for case. */
  predicate SameName(a: Text, b: Text) { |a| == |b| && forall i :: 0 <= i < |a| ==> Upper(a[i]) == Upper(b[i]) }

  /** Each character the same, or a letter and its other case. */
  predicate Respelled(a: Text, b: Text) {
    |a| == |b| && forall i :: 0 <= i < |a| ==>
      a[i] == b[i] || (65 <= a[i] <= 90 && b[i] == a[i] + 32) || (97 <= a[i] <= 122 && b[i] == a[i] - 32)
  }

  lemma NamesAlike(a: Text, b: Text)
    ensures SameName(a, b) <==> Respelled(a, b)
  {
  }

  function SkipBlanks(s: Text): (r: Text)
    ensures |r| <= |s|
  {
    if s != [] && (s[0] == SPACE || s[0] == TAB) then SkipBlanks(s[1..]) else s
  }

  /** An asset's bytes in the file. */
  datatype Range = Range(base: nat, len: nat)

  /** A header line of the directory: the length it gives, and the name. */
  datatype Heading = Heading(len: nat, name: Text)

  function ParseEntry(text: Text): (r: Option<Heading>)
    ensures r.Some? ==> r.value.len < WORD
  {
    var s := CString(text);
    if |s| < 2 || s[0] != HASH || s[1] != MORE then None
    else
      var n := ParseUint(s[2..]);
      if n.None? then None else
      var c := ParseUint(n.value.rest);
      if c.None? then None else Some(Heading(n.value.value, SkipBlanks(c.value.rest)))
  }

  // ---------------- the scan ----------------

  /** Where a scan of the directory is: done, or about to read the line at pos. */
  datatype Scan = Found(range: Range) | Missing | Looking(pos: nat)

  /** One line of the scan. The position after an entry is a 32-bit sum. */
  function Step(img: seq<u8>, pos: nat, name: Text): Scan {
    match Gets(img, pos, LINE_MAX)
    case None => Missing
    case Some(line) =>
      match ParseEntry(line.text)
      case None => Missing
      case Some(e) =>
        if e.name != [] && SameName(e.name, name) then Found(Range(line.pos, e.len))
        else Looking((line.pos + e.len) % WORD)
  }

  /** The scan n lines on. */
  function After(img: seq<u8>, s: Scan, name: Text, n: nat): Scan
    decreases n
  {
    if n == 0 || !s.Looking? then s else After(img, Step(img, s.pos, name), name, n - 1)
  }

  /** The scan is over within as many lines as the file has bytes, and one more. */
  predicate Ends(img: seq<u8>, pos: nat, name: Text) { !After(img, Looking(pos), name, |img| + 1).Looking? }

  /** The first entry of that name from pos on, when the scan ends. */
  function Find(img: seq<u8>, pos: nat, name: Text): Option<Range> {
    match After(img, Looking(pos), name, |img| + 1)
    case Found(r) => Some(r)
    case _ => None
  }

  lemma {:induction false} AfterAdd(img: seq<u8>, s: Scan, name: Text, a: nat, b: nat)
    ensures After(img, s, name, a + b) == After(img, After(img, s, name, a), name, b)
    decreases a
  {
    hide Step;
    if a > 0 && s.Looking? {
      AfterAdd(img, Step(img, s.pos, name), name, a - 1, b);
    }
  }

  function Without(s: seq<nat>, k: nat): (t: seq<nat>)
    requires k < |s|
    ensures |t| == |s| - 1 && forall m :: 0 <= m < |t| ==> t[m] == s[if m < k then m else m + 1]
  {
    s[..k] + s[k + 1..]
  }

  /** Of more numbers below n than n, two are the same. */
  lemma {:induction false} Pigeonhole(s: seq<nat>, n: nat) returns (i: nat, j: nat)
    requires |s| > n && forall k :: 0 <= k < |s| ==> s[k] < n
    ensures i < j < |s| && s[i] == s[j]
    decreases n
  {
    hide Without;
    assert s[0] < n;
    if k :| 0 <= k < |s| && s[k] == n - 1 {
      if l :| 0 <= l < |s| && l != k && s[l] == n - 1 {
        i, j := if k < l then k else l, if k < l then l else k;
      } else {
        i, j := Pigeonhole(Without(s, k), n - 1);
        i, j := if i < k then i else i + 1, if j < k then j else j + 1;
      }
    } else {
      i, j := Pigeonhole(s[..n], n - 1);
    }
  }

  /** A scan that comes back to where it was never ends. */
  lemma {:induction false} CycleNeverEnds(img: seq<u8>, s: Scan, name: Text, i: nat, j: nat, n: nat)
    requires i < j && After(img, s, name, j).Looking? && After(img, s, name, i) == After(img, s, name, j)
    ensures After(img, s, name, n).Looking?
    decreases n
  {
    hide Step;
    if n <= j {
      AfterAdd(img, s, name, n, j - n);
    } else {
      AfterAdd(img, s, name, j, n - j);
      AfterAdd(img, s, name, i, n - j);
      CycleNeverEnds(img, s, name, i, j, n - j + i);
    }
  }

  /** A scan ends at all exactly when it ends within as many lines as the file has bytes, and one more. */
  lemma ScanEnds(img: seq<u8>, pos: nat, name: Text)
    ensures (exists n: nat :: !After(img, Looking(pos), name, n).Looking?) <==> Ends(img, pos, name)
  {
    hide After;
    if Ends(img, pos, name) {
      assert !After(img, Looking(pos), name, |img| + 1).Looking?;
    } else {
      LongScanRepeats(img, pos, name);
    }
  }

  lemma LongScanRepeats(img: seq<u8>, pos: nat, name: Text)
    requires !Ends(img, pos, name)
    ensures forall n: nat :: After(img, Looking(pos), name, n).Looking?
  {
    hide Step;
    var s, top := Looking(pos), |img| + 1;
    forall k: nat | k <= top
      ensures After(img, s, name, k).Looking? && (k < top ==> After(img, s, name, k).pos < |img|)
    {
      AfterAdd(img, s, name, k, top - k);
      if k < top {
        AfterAdd(img, s, name, k, 1);
        AfterAdd(img, s, name, k + 1, top - k - 1);
        LookingInside(img, After(img, s, name, k).pos, name);
      }
    }
    var trail := seq(top, k requires 0 <= k < top => After(img, s, name, k).pos);
    var i, j := Pigeonhole(trail, |img|);
    forall n: nat
      ensures After(img, s, name, n).Looking?
    {
      CycleNeverEnds(img, s, name, i, j, n);
    }
  }

  lemma LookingInside(img: seq<u8>, pos: nat, name: Text)
    ensures Step(img, pos, name).Looking? ==> pos < |img|
  {
    hide ParseEntry, SameName;
  }

  /** Wherever a scan stops, that is what it finds. */
  lemma FindStopped(img: seq<u8>, pos: nat, name: Text, n: nat)
    requires !After(img, Looking(pos), name, n).Looking?
    ensures Ends(img, pos, name)
    ensures After(img, Looking(pos), name, |img| + 1) == After(img, Looking(pos), name, n)
  {
    hide Step;
    ScanEnds(img, pos, name);
    var top := |img| + 1;
    if n <= top {
      AfterAdd(img, Looking(pos), name, n, top - n);
    } else {
      AfterAdd(img, Looking(pos), name, top, n - top);
    }
  }

  /** No entry from pos on says a length that runs past 2^32. */
  predicate Forward(img: seq<u8>, pos: nat, name: Text)
    decreases if pos <= |img| then |img| - pos else 0
  {
    match Gets(img, pos, LINE_MAX)
    case None => true
    case Some(line) =>
      match ParseEntry(line.text)
      case None => true
      case Some(e) =>
        (e.name != [] && SameName(e.name, name)) || (line.pos + e.len < WORD && Forward(img, line.pos + e.len, name))
  }

  /** A scan of such a directory ends. */
  lemma ForwardEnds(img: seq<u8>, pos: nat, name: Text)
    requires Forward(img, pos, name)
    ensures Ends(img, pos, name)
  {
    hide Forward, After;
    var n := ForwardStops(img, pos, name);
    FindStopped(img, pos, name, n);
  }

  lemma {:induction false} ForwardStops(img: seq<u8>, pos: nat, name: Text) returns (n: nat)
    requires Forward(img, pos, name)
    ensures !After(img, Looking(pos), name, n).Looking?
    decreases if pos <= |img| then |img| - pos else 0
  {
    hide Gets, ParseEntry, SameName;
    var s := Step(img, pos, name);
    if s.Looking? {
      n := ForwardStops(img, s.pos, name);
      n := n + 1;
    } else {
      n := 1;
    }
  }

  /** An entry whose length is 2^32 less its header's own sends the scan back to it, for ever. */
  lemma {:induction false} EntryLoops(img: seq<u8>, pos: nat, name: Text, n: nat)
    requires Step(img, pos, name) == Looking(pos)
    ensures After(img, Looking(pos), name, n) == Looking(pos)
    decreases n
  {
    hide Step;
    if n > 0 {
      EntryLoops(img, pos, name, n - 1);
    }
  }

  // ---------------- finding what was packed ----------------

  /** A name the packer may be given: ASCII, with no blank in front, that fits the header line. */
  predicate NameOk(name: Text) {
    name != [] && NameFits(name, LINE_MAX) && IsAscii(name) && name[0] != SPACE && name[0] != TAB
  }

  /** Such a name, or an empty one or none. */
  predicate EntryOk(x: Entry) {
    |x.data| < WORD && (x.name.None? || x.name.value == [] || NameOk(x.name.value))
  }

  /** An entry of that name, in whatever case. */
  predicate Bears(x: Entry, name: Text) { x.name.Some? && x.name.value != [] && Respelled(x.name.value, name) }

  /** The entry that is found: every one before it has a name with another character, or none. */
  ghost predicate FirstOf(xs: seq<Entry>, k: int, name: Text) {
    0 <= k < |xs| && Bears(xs[k], name) && forall j :: 0 <= j < k ==> !Bears(xs[j], name)
  }

  predicate Answers(x: Entry, name: Text) { x.name.Some? && x.name.value != [] && SameName(x.name.value, name) }

  /** Where entry i's data starts, past the entries before it. */
  function DataAt(xs: seq<Entry>, i: nat, crc: Crc): nat
    requires i < |xs|
  {
    if i == 0 then |EntryHead(|xs[0].data|, Checksum(crc, xs[0].data), xs[0].name)| + 2
    else |EntryBytes(xs[0], crc)| + DataAt(xs[1..], i - 1, crc)
  }

  /** Which entry answers to name: the first named so. */
  function FirstNamed(xs: seq<Entry>, name: Text): (i: nat)
    ensures i <= |xs| && (i < |xs| ==> Answers(xs[i], name)) && forall k :: 0 <= k < i ==> !Answers(xs[k], name)
  {
    if xs == [] || Answers(xs[0], name) then 0 else 1 + FirstNamed(xs[1..], name)
  }

  lemma HeadBack(len: nat, n: nat, name: Option<Text>)
    requires len < WORD && n < WORD && (name.None? || name.value == [] || NameOk(name.value))
    ensures ParseEntry(EntryHead(len, n, name)) == Some(Heading(len, if name.Some? then name.value else []))
  {
    hide ParseUint, IsAscii, HeadNumbers;
    HeadParts(len, n, name);
    HeadInline(len, n, name);
    NumbersBack(len, n, Tag(name));
    InlineString(EntryHead(len, n, name));
    TrimTag(name);
    hide EntryHead;
  }

  lemma TrimTag(name: Option<Text>)
    requires name.None? || name.value == [] || NameOk(name.value)
    ensures SkipBlanks(Trim(Tag(name))) == if name.Some? then name.value else []
  {
    if name.Some? {
      assert ([SPACE] + name.value)[1..] == name.value;
    }
  }

  /** The scan's line at a header, whatever follows it. */
  lemma HeadStep(img: seq<u8>, pos: nat, len: nat, n: nat, x: Option<Text>, e: seq<u8>, name: Text)
    requires len < WORD && n < WORD && (x.None? || x.value == [] || NameOk(x.value))
    requires pos <= |img| && pos < SEEK_MAX && img[pos..] == EntryHead(len, n, x) + [CR, LF] + e
    ensures var at := pos + |EntryHead(len, n, x)| + 2;
      && at <= |img| && img[at..] == e
      && Step(img, pos, name) ==
           if x.Some? && x.value != [] && SameName(x.value, name) then Found(Range(at, len))
             else Looking((at + len) % WORD)
  {
    hide Gets, ParseEntry, EntryHead, SameName;
    HeadInline(len, n, x);
    HeadBack(len, n, x);
    LineAt(img, pos, LINE_MAX, EntryHead(len, n, x), e);
  }

  /** The scan steps over an entry, or stops at it. */
  lemma EntryStep(img: seq<u8>, pos: nat, x: Entry, e: seq<u8>, name: Text, crc: Crc)
    requires EntryOk(x) && pos <= |img| && pos < SEEK_MAX && img[pos..] == EntryBytes(x, crc) + e
    ensures var at := pos + |EntryHead(|x.data|, Checksum(crc, x.data), x.name)| + 2;
      && at + |x.data| <= |img| && img[pos + |EntryBytes(x, crc)|..] == e && img[at..at + |x.data|] == x.data
      && Step(img, pos, name) == if Answers(x, name) then Found(Range(at, |x.data|))
                                 else Looking((pos + |EntryBytes(x, crc)|) % WORD)
  {
    hide Step, EntryHead, SameName;
    var n := Checksum(crc, x.data);
    var head := EntryHead(|x.data|, n, x.name);
    assert EntryBytes(x, crc) + e == head + [CR, LF] + (x.data + e);
    HeadStep(img, pos, |x.data|, n, x.name, x.data + e, name);
    var at := pos + |head| + 2;
    assert img[at..at + |x.data|] == img[at..][..|x.data|] == x.data;
    assert img[at + |x.data|..] == img[at..][|x.data|..] == e;
  }

  /** What the scan of packed entries is after one line each and one more. */
  lemma {:induction false} ScanPacked(img: seq<u8>, pos: nat, xs: seq<Entry>, name: Text, crc: Crc)
    requires pos <= |img| <= SEEK_MAX && img[pos..] == EntriesBytes(xs, crc)
    requires forall i :: 0 <= i < |xs| ==> EntryOk(xs[i])
    ensures var i := FirstNamed(xs, name);
      if i == |xs| then After(img, Looking(pos), name, |xs| + 1) == Missing
      else
        var at := pos + DataAt(xs, i, crc);
        && After(img, Looking(pos), name, |xs| + 1) == Found(Range(at, |xs[i].data|))
        && at + |xs[i].data| <= |img| && img[at..at + |xs[i].data|] == xs[i].data
    decreases |xs|
  {
    hide EntryOk, Answers, EntryHead, EntryBytes, Step;
    if xs == [] {
      assert img[pos..] == [] && pos == |img|;
      EndOfFile(img, name);
      assert After(img, Looking(pos), name, 1) == After(img, Step(img, pos, name), name, 0);
    } else {
      var x, e := xs[0], EntriesBytes(xs[1..], crc);
      EntryLength(x, crc);
      EntryStep(img, pos, x, e, name, crc);
      hide EntriesBytes, FirstNamed, DataAt;
      assert After(img, Looking(pos), name, |xs| + 1) == After(img, Step(img, pos, name), name, |xs|);
      if Answers(x, name) {
        NamedHere(xs, name, crc);
      } else {
        var next := pos + |EntryBytes(x, crc)|;
        ScanPacked(img, next, xs[1..], name, crc);
        NamedNext(xs, name, next - pos, crc);
      }
    }
  }

  lemma EntryLength(x: Entry, crc: Crc)
    ensures |EntryBytes(x, crc)| >= 2 + |x.data|
  {
    hide EntryHead;
  }

  lemma EndOfFile(img: seq<u8>, name: Text)
    ensures Step(img, |img|, name) == Missing
  {
  }

  /** The scan of a directory ends, and gives the data of the first entry of that name, or nothing when
      there is none. */
  lemma FindPacked(img: seq<u8>, pos: nat, xs: seq<Entry>, name: Text, crc: Crc)
    requires pos <= |img| <= SEEK_MAX && img[pos..] == EntriesBytes(xs, crc)
    requires forall i :: 0 <= i < |xs| ==> EntryOk(xs[i])
    ensures Ends(img, pos, name)
    ensures (forall k :: 0 <= k < |xs| ==> !Bears(xs[k], name)) ==> Find(img, pos, name) == None
    ensures forall k :: FirstOf(xs, k, name) ==>
      var at := pos + DataAt(xs, k, crc);
      && Find(img, pos, name) == Some(Range(at, |xs[k].data|))
      && at + |xs[k].data| <= |img| && img[at..at + |xs[k].data|] == xs[k].data
  {
    hide EntryOk, After, EntriesBytes, FirstNamed, DataAt, Bears;
    ScanPacked(img, pos, xs, name, crc);
    FindStopped(img, pos, name, |xs| + 1);
    FirstNamedIs(xs, name);
  }

  /** What the scan's comparison comes to. */
  lemma FirstNamedIs(xs: seq<Entry>, name: Text)
    ensures FirstNamed(xs, name) == |xs| <==> forall k :: 0 <= k < |xs| ==> !Bears(xs[k], name)
    ensures forall k :: FirstOf(xs, k, name) <==> k == FirstNamed(xs, name) < |xs|
  {
    forall k | 0 <= k < |xs|
      ensures Bears(xs[k], name) <==> Answers(xs[k], name)
    {
      if xs[k].name.Some? {
        NamesAlike(xs[k].name.value, name);
      }
    }
    var i := FirstNamed(xs, name);
    hide FirstNamed, Bears, Answers;
    assert forall k :: FirstOf(xs, k, name) ==> k == i;
  }

  lemma NamedHere(xs: seq<Entry>, name: Text, crc: Crc)
    requires xs != [] && Answers(xs[0], name)
    ensures FirstNamed(xs, name) == 0
    ensures DataAt(xs, 0, crc) == |EntryHead(|xs[0].data|, Checksum(crc, xs[0].data), xs[0].name)| + 2
  {
  }

  lemma NamedNext(xs: seq<Entry>, name: Text, skip: nat, crc: Crc)
    requires xs != [] && !Answers(xs[0], name) && skip == |EntryBytes(xs[0], crc)|
    ensures var i := FirstNamed(xs[1..], name);
      && FirstNamed(xs, name) == i + 1
      && (i < |xs| - 1 ==> DataAt(xs, i + 1, crc) == skip + DataAt(xs[1..], i, crc) && xs[i + 1] == xs[1..][i])
  {
    hide Answers, EntryBytes, EntryHead;
  }

  // ---------------- the drive ----------------

  datatype Window = Window(used: bool, base: nat, len: nat, pos: nat)

  datatype Whence = SeekSet | SeekCur | SeekEnd | SeekOther

  /** A 32-bit word read as signed. */
  function Signed(x: int): int { if x < 0x8000_0000 then x else x - WORD }

  /** Where a seek counts from. A position or a length of 2^31 or more reads as negative. */
  function From(w: Window, whence: Whence): int {
    match whence
    case SeekSet => 0
    case SeekCur => Signed(w.pos)
    case SeekEnd => Signed(w.len)
    case SeekOther => -1
  }

  class AssetDrive {
    const img: seq<u8>     // the loader's file
    const start: nat       // where its directory starts, 0 for none
    const windows: array<Window>
    var fd: nat            // where the one descriptor stands
    ghost var names: seq<Text>  // what each window was opened as

    /** Each window is on the asset it was opened as, its position inside it, and the descriptor's inside
        the file. */
    ghost predicate Valid()
      reads this`fd, this`names, windows
    {
      && fd <= |img| && windows.Length == OPEN_MAX == |names|
      && forall i :: 0 <= i < OPEN_MAX && windows[i].used ==> OnAsset(windows[i], names[i])
    }

    ghost predicate OnAsset(w: Window, name: Text) {
      w.pos <= w.len < WORD && w.base < WORD && start != 0 && Find(img, start, name) == Some(Range(w.base, w.len))
    }

    constructor (file: seq<u8>, dir: nat)
      ensures Valid() && img == file && start == dir && fresh(windows)
      ensures forall i :: 0 <= i < OPEN_MAX ==> !windows[i].used
    {
      img, start, windows, fd := file, dir, new Window[OPEN_MAX](_ => Window(false, 0, 0, 0)), 0;
      names := seq(OPEN_MAX, _ => []);
    }

    /** A seek of the descriptor: refused without a move from 2^31 on, and stopped at the file's end. */
    method Seek(pos: nat)
      requires Valid()
      modifies this`fd
      ensures Valid() && fd == if pos >= SEEK_MAX then old(fd) else if pos > |img| then |img| else pos
    {
      if pos < SEEK_MAX {
        fd := if pos > |img| then |img| else pos;
      }
    }

    /** A line at pos, and the descriptor where the read of its block left it (asset_gets). */
    method GetLine(pos: nat) returns (line: Option<Line>)
      requires Valid()
      modifies this`fd
      ensures Valid() && line == Gets(img, pos, LINE_MAX)
    {
      hide Gets;
      line := ReadLine(img, pos, LINE_MAX);
      Seek(pos);
      if pos < SEEK_MAX {
        fd := if fd + LINE_MAX - 1 <= |img| then fd + LINE_MAX - 1 else |img|;
      }
    }

    /** The directory scan (rom_asset_find), for a directory it comes to an end of. */
    method FindAsset(name: Text) returns (r: Option<Range>)
      requires Valid() && (start != 0 ==> Ends(img, start, name))
      modifies this`fd
      ensures Valid() && r == if start == 0 then None else Find(img, start, name)
      ensures r.Some? ==> r.value.len < WORD && r.value.base < WORD
    {
      hide Gets, ParseEntry, SameName;
      if start == 0 {
        return None;
      }
      var pos: nat := start;
      ghost var left: nat := |img| + 1;
      while true
        invariant Valid() && After(img, Looking(pos), name, left) == After(img, Looking(start), name, |img| + 1)
        decreases left
      {
        assert After(img, Looking(pos), name, 0) == Looking(pos);
        var line := GetLine(pos);
        if line.None? {
          return None;
        }
        var e := ParseEntry(line.value.text);
        if e.None? {
          return None;
        }
        if e.value.name != [] && SameName(e.value.name, name) {
          return Some(Range(line.value.pos, e.value.len));
        }
        pos := (line.value.pos + e.value.len) % WORD;
        left := left - 1;
      }
    }

    /** Opens a window on an asset in the first free slot. */
    method Open(name: Text) returns (desc: int)
      requires Valid() && (start != 0 ==> Ends(img, start, name))
      modifies this`fd, this`names, windows
      ensures Valid() && desc < 16 && names == if desc >= 0 then old(names)[desc := name] else old(names)
      ensures desc >= 0 ==> start != 0 && Find(img, start, name).Some? && !old(windows[desc].used)
      ensures desc >= 0 ==>
        var r := Find(img, start, name).value;
        windows[..] == old(windows[..])[desc := Window(true, r.base, r.len, 0)]
      ensures desc < 0 ==> windows[..] == old(windows[..])
      ensures desc < 0 <==>
        start == 0 || Find(img, start, name).None? || forall i :: 0 <= i < 16 ==> old(windows[i].used)
    {
      hide Find, Ends;
      var r := FindAsset(name);
      if r.None? {
        return -1;
      }
      for i := 0 to OPEN_MAX
        invariant forall k :: 0 <= k < i ==> windows[k].used
        invariant Valid() && windows[..] == old(windows[..]) && names == old(names)
      {
        if !windows[i].used {
          windows[i] := Window(true, r.value.base, r.value.len, 0);
          names := names[i := name];
          return i;
        }
      }
      return -1;
    }

    predicate Opened(desc: int)
      requires windows.Length == OPEN_MAX
      reads windows
    {
      0 <= desc < OPEN_MAX && windows[desc].used
    }

    method Close(desc: int) returns (ok: bool)
      requires Valid()
      modifies windows
      ensures Valid() && ok == old(Opened(desc))
      ensures windows[..] == if ok then old(windows[..])[desc := old(windows[desc]).(used := false)]
        else old(windows[..])
    {
      ok := Opened(desc);
      if ok {
        windows[desc] := windows[desc].(used := false);
      }
    }

    /** Up to count bytes from the window's position; the file's driver gives at most most of them. The seek
        before the read is not checked, so where it is refused the bytes come from wherever the
        descriptor was left. */
    method Read(desc: int, count: nat, most: nat) returns (ok: bool, data: seq<u8>)
      requires Valid()
      modifies this`fd, windows
      ensures Valid() && ok == old(Opened(desc))
      ensures !ok ==> data == [] && windows[..] == old(windows[..]) && fd == old(fd)
      ensures ok ==>
        var w := old(windows[desc]);
        var at := Source(w, |img|, old(fd));
        && |data| <= count && |data| <= most && w.pos + |data| <= w.len
        && at + |data| <= |img| && data == img[at..at + |data|]
        && (|data| == count || |data| == most || w.pos + |data| == w.len || at + |data| == |img|)
        && fd == if count == 0 || w.pos == w.len then old(fd) else at + |data|
      ensures ok ==>
        var w := old(windows[desc]);
        (Seekable(w) ==> Slice(img, w, data))
          && (|img| <= SEEK_MAX ==> (Slice(img, w, data) <==> Seekable(w) || data == []))
      ensures ok ==>
        windows[..] == old(windows[..])[desc := old(windows[desc]).(pos := old(windows[desc]).pos + |data|)]
    {
      hide Slice, Seekable, OnAsset, Source;
      ok := Opened(desc);
      if !ok {
        return false, [];
      }
      var w := windows[desc];
      WindowInside(w, names[desc]);
      var n := if count < w.len - w.pos then count else w.len - w.pos;
      if n == 0 {
        data := [];
      } else {
        data := Fetch((w.base + w.pos) % WORD, n, most);
      }
      SourceIs(w, |img|, old(fd));
      SliceExactly(img, w, old(fd), data);
      MovedOn(w, names[desc], |data|);
      windows[desc] := w.(pos := w.pos + |data|);
    }

    lemma WindowInside(w: Window, name: Text)
      requires OnAsset(w, name)
      ensures w.pos <= w.len < WORD && w.base < WORD
    {
      hide Find;
    }

    lemma MovedOn(w: Window, name: Text, n: nat)
      requires OnAsset(w, name) && w.pos + n <= w.len
      ensures OnAsset(w.(pos := w.pos + n), name)
    {
      hide Find;
    }

    /** Whatever opens, reads, seeks and closes came before, on a packed image every open window is on the
        asset it was opened as: it reads those bytes from its position on, and the driver can seek to
        them. */
    lemma WindowReads(desc: int, d: seq<u8>, cs: seq<Chunk>, xs: seq<Asset>, crc: Crc) returns (k: nat)
      requires Valid() && Opened(desc) && img == ImageBytes(cs, xs, crc) && |img| <= SEEK_MAX && NamesOk(xs)
      requires start == 10
      requires Slice(img, windows[desc], d)
      ensures FirstOf(Entries(xs), k, names[desc])
      ensures var w := windows[desc];
        && w.len == |xs[k].data| && w.pos + |d| <= w.len && d == xs[k].data[w.pos..w.pos + |d|]
        && (w.pos < w.len ==> Seekable(w))
    {
      hide Find, Ends, FirstNamed, NamesOk, ImageBytes, FirstOf, Bears, Entries, Slice, Seekable;
      var w, name := windows[desc], names[desc];
      assert OnAsset(w, name);
      k := PackedWindow(cs, xs, name, crc);
      WindowSlice(img, w, xs[k].data, d);
    }

    /** Up to n bytes from at, when the driver can seek there (window_fetch). */
    method Fetch(at: nat, n: nat, most: nat) returns (data: seq<u8>)
      requires Valid()
      modifies this`fd
      ensures Valid() && |data| <= n && |data| <= most
      ensures var q := if at >= SEEK_MAX then old(fd) else if at > |img| then |img| else at;
        && q + |data| <= |img| && data == img[q..q + |data|] && fd == q + |data|
        && (|data| == n || |data| == most || q + |data| == |img|)
    {
      Seek(at);
      var len := if n > most then most else n;
      if len > |img| - fd {
        len := |img| - fd;
      }
      data := img[fd..fd + len];
      fd := fd + len;
    }

    /** The window's position moved; past the end lands at the end, and before the start fails. */
    method Lseek(desc: int, whence: Whence, off: int) returns (ok: bool, pos: int)
      requires Valid()
      modifies windows
      ensures Valid()
      ensures ok == (old(Opened(desc)) && From(old(windows[desc]), whence) >= 0
        && From(old(windows[desc]), whence) + off >= 0)
      ensures ok ==>
        var w := old(windows[desc]);
        var np := if From(w, whence) + off > w.len then w.len else From(w, whence) + off;
        windows[..] == old(windows[..])[desc := w.(pos := np)] && pos == Signed(np)
      ensures !ok ==> windows[..] == old(windows[..])
    {
      if !Opened(desc) {
        return false, 0;
      }
      var w := windows[desc];
      var from := match whence
        case SeekSet => 0
        case SeekCur => Signed(w.pos)
        case SeekEnd => Signed(w.len)
        case SeekOther => -1;
      var np := from + off;
      if from < 0 || np < 0 {
        return false, 0;
      }
      if np > w.len {
        np := w.len;
      }
      windows[desc] := w.(pos := np);
      return true, Signed(np);
    }
  }

  /** The window's next byte is where the driver can seek to. A window past 2^32 wraps to the front of the
      file, and is no more the asset's than one the driver refuses. */
  predicate Seekable(w: Window) { w.base + w.pos < SEEK_MAX }

  /** Where a read of window w starts, with the descriptor of a file of size bytes at fd. */
  function Source(w: Window, size: nat, fd: nat): (at: nat)
    requires fd <= size
    ensures at <= size && (Seekable(w) && w.base + w.pos <= size ==> at == w.base + w.pos)
  {
    var at := (w.base + w.pos) % WORD;
    if at >= SEEK_MAX then fd else if at > size then size else at
  }

  /** Exactly when the bytes read are the window's: in a file the driver can seek all of, when it can seek
      to them; in any file the read is at their place when it can, or is refused with the descriptor there
      already. */
  lemma SliceExactly(img: seq<u8>, w: Window, fd: nat, data: seq<u8>)
    requires fd <= |img| && w.pos + |data| <= w.len
    requires var at := Source(w, |img|, fd); at + |data| <= |img| && data == img[at..at + |data|]
    ensures Seekable(w) ==> Slice(img, w, data)
    ensures |img| <= SEEK_MAX ==> (Slice(img, w, data) <==> Seekable(w) || data == [])
    ensures var at := w.base + w.pos;
      data != [] ==> (Source(w, |img|, fd) == at <==> Seekable(w) || (fd == at && at % WORD >= SEEK_MAX))
  {
  }

  lemma SourceIs(w: Window, size: nat, fd: nat)
    requires fd <= size
    ensures var at := (w.base + w.pos) % WORD;
      Source(w, size, fd) == if at >= SEEK_MAX then fd else if at > size then size else at
  {
  }

  /** data is what window w has next: bytes of the file from its position on, and none past its end. */
  predicate Slice(img: seq<u8>, w: Window, data: seq<u8>) {
    var at := w.base + w.pos;
    w.pos + |data| <= w.len && (data == [] || (at + |data| <= |img| && data == img[at..at + |data|]))
  }

  /** What reads of window w, one after the other and no seek between them, may give. */
  predicate Reads(img: seq<u8>, w: Window, ds: seq<seq<u8>>)
    decreases |ds|
  {
    ds == [] || (Slice(img, w, ds[0]) && Reads(img, w.(pos := w.pos + |ds[0]|), ds[1..]))
  }

  /** Together they are one slice: no byte is read twice and none is passed over. */
  lemma {:induction false} ReadsJoin(img: seq<u8>, w: Window, ds: seq<seq<u8>>)
    requires w.pos <= w.len && Reads(img, w, ds)
    ensures Slice(img, w, Concat(ds))
    decreases |ds|
  {
    if ds != [] {
      var next := w.(pos := w.pos + |ds[0]|);
      ReadsJoin(img, next, ds[1..]);
      var at, n := w.base + w.pos, |ds[0]|;
      assert Concat(ds) == ds[0] + Concat(ds[1..]);
      if Concat(ds) != [] && Concat(ds[1..]) == [] {
        assert Concat(ds) == ds[0];
      }
      if ds[0] != [] && Concat(ds[1..]) != [] {
        assert img[at..at + |Concat(ds)|] == img[at..at + n] + img[at + n..at + |Concat(ds)|];
      }
    }
  }

  lemma SubSlice(img: seq<u8>, at: nat, x: seq<u8>, p: nat, n: nat)
    requires at + |x| <= |img| && img[at..at + |x|] == x && p + n <= |x|
    ensures img[at + p..at + p + n] == x[p..p + n]
  {
    var y, z := img[at + p..at + p + n], x[p..p + n];
    forall k | 0 <= k < n
      ensures y[k] == z[k]
    {
      assert img[at..at + |x|][p + k] == img[at + p + k];
    }
  }

  /** Names the scan can tell apart, or empty ones that it passes over. */
  predicate NamesOk(xs: seq<Asset>) { forall i :: 0 <= i < |xs| ==> xs[i].name == [] || NameOk(xs[i].name) }

  /** On a packed image that the driver can seek all of, the scan ends for every name, and finds the first
      asset of that name, in whatever case its letters are, passing over every one that differs in any
      other way; and nothing when there is none. */
  lemma PackedAsset(cs: seq<Chunk>, xs: seq<Asset>, name: Text, crc: Crc)
    requires |ImageBytes(cs, xs, crc)| <= 0x8000_0000 && NamesOk(xs)
    ensures var img := ImageBytes(cs, xs, crc);
      && Ends(img, 10, name)
      && ((forall k :: 0 <= k < |xs| ==> !Bears(Entries(xs)[k], name)) ==> Find(img, 10, name) == None)
      && forall k :: FirstOf(Entries(xs), k, name) ==>
           && Find(img, 10, name).Some?
           && var r := Find(img, 10, name).value;
           r.len == |xs[k].data| && r.base + r.len <= |img| && img[r.base..r.base + r.len] == xs[k].data
  {
    hide Directory, ImageBytes, NamesOk, Find, EntriesBytes, Ends, FirstNamed, DataAt, EntryOk, Entries, FirstOf, Bears;
    var img, dir := ImageBytes(cs, xs, crc), Directory(cs, xs, crc);
    ImageDirectory(cs, xs, crc);
    EntriesFit(dir, crc);
    DirectoryOk(cs, xs, crc);
    FindPacked(img, 10, dir, name, crc);
    FirstInDirectory(cs, xs, name, crc);
    FirstNamedIs(dir, name);
    FirstNamedIs(Entries(xs), name);
  }

  /** What is found, is found as the first of its name. */
  lemma PackedWindow(cs: seq<Chunk>, xs: seq<Asset>, name: Text, crc: Crc) returns (k: nat)
    requires |ImageBytes(cs, xs, crc)| <= SEEK_MAX && NamesOk(xs) && Find(ImageBytes(cs, xs, crc), 10, name).Some?
    ensures k < |xs| && FirstOf(Entries(xs), k, name)
    ensures var img := ImageBytes(cs, xs, crc);
      var r := Find(img, 10, name).value;
      r.len == |xs[k].data| && r.base + r.len <= |img| && img[r.base..r.base + r.len] == xs[k].data
  {
    hide Find, Ends, FirstNamed, NamesOk, ImageBytes, Bears;
    PackedAsset(cs, xs, name, crc);
    FirstNamedIs(Entries(xs), name);
    k := FirstNamed(Entries(xs), name);
    hide FirstOf;
  }

  /** Bytes of a window on an asset's data. */
  lemma WindowSlice(img: seq<u8>, w: Window, x: seq<u8>, d: seq<u8>)
    requires Slice(img, w, d) && w.len == |x| && w.base + w.len <= |img| <= SEEK_MAX && w.pos <= w.len
    requires img[w.base..w.base + w.len] == x
    ensures w.pos + |d| <= w.len && d == x[w.pos..w.pos + |d|] && (w.pos < w.len ==> Seekable(w))
  {
    if d == [] {
      assert x[w.pos..w.pos] == [];
    } else {
      SubSlice(img, w.base, x, w.pos, |d|);
    }
  }

  lemma ImageDirectory(cs: seq<Chunk>, xs: seq<Asset>, crc: Crc)
    ensures var img := ImageBytes(cs, xs, crc);
      |img| >= 10 && img[10..] == EntriesBytes(Directory(cs, xs, crc), crc)
  {
    hide EntriesBytes, Directory;
  }

  /** The memory's entry answers to no name. */
  lemma FirstInDirectory(cs: seq<Chunk>, xs: seq<Asset>, name: Text, crc: Crc)
    ensures var dir, skip := Directory(cs, xs, crc), if cs == [] then 0 else 1;
      var i := FirstNamed(Entries(xs), name);
      && |dir| == skip + |xs| && FirstNamed(dir, name) == skip + i
      && (i < |xs| ==> dir[skip + i].data == xs[i].data)
  {
    hide ChunksBytes, EntryBytes, FirstNamed, Entries, SameName;
    var dir := Directory(cs, xs, crc);
    if cs == [] {
      assert dir == Entries(xs);
    } else {
      assert dir[0] == Entry(None, ChunksBytes(cs, crc)) && dir[1..] == Entries(xs);
      NamedNext(dir, name, |EntryBytes(dir[0], crc)|, crc);
    }
  }

  lemma DirectoryOk(cs: seq<Chunk>, xs: seq<Asset>, crc: Crc)
    requires NamesOk(xs) && forall i :: 0 <= i < |Directory(cs, xs, crc)| ==> |Directory(cs, xs, crc)[i].data| < WORD
    ensures forall i :: 0 <= i < |Directory(cs, xs, crc)| ==> EntryOk(Directory(cs, xs, crc)[i])
  {
    hide ChunksBytes, NameOk;
    var dir := Directory(cs, xs, crc);
    var skip := if cs == [] then 0 else 1;
    forall i | 0 <= i < |dir|
      ensures EntryOk(dir[i])
    {
      assert i >= skip ==> dir[i] == EntryOf(xs[i - skip]);
    }
  }

  lemma {:induction false} EntriesFit(xs: seq<Entry>, crc: Crc)
    ensures forall i :: 0 <= i < |xs| ==> |xs[i].data| <= |EntriesBytes(xs, crc)|
    decreases |xs|
  {
    hide EntryBytes;
    if xs != [] {
      EntryLength(xs[0], crc);
      EntriesFit(xs[1..], crc);
      forall i | 1 <= i < |xs|
        ensures |xs[i].data| <= |EntriesBytes(xs, crc)|
      {
        assert xs[i] == xs[1..][i - 1];
      }
    }
  }

  // ---------------- images that go wrong ----------------

  /** An image of a memory, and after it the header line of an asset that says it is len bytes. */
  function Claiming(cs: seq<Chunk>, len: nat, name: Text, tail: seq<u8>, crc: Crc): seq<u8> {
    ImageFrom(Entry(None, ChunksBytes(cs, crc)), EntryHead(len, 0, Some(name)) + [CR, LF] + tail, crc)
  }

  /** It loads, and the scan is past the memory's entry after its first line. */
  lemma ClaimingLoads(cs: seq<Chunk>, len: nat, name: Text, tail: seq<u8>, want: Text, data: Sparse, m: Memory,
        crc: Crc)
    returns (q: nat)
    requires Packs(cs, data, 0, TOP) && MemoryOk(m) && (exists a :: a in data) && CrcOk(crc) && NameOk(name)
    requires forall a :: a in data ==> 0 <= a < RAMS
    ensures var img := Claiming(cs, len, name, tail, crc);
      && Loads(img, m, data, crc) && Open(img).Some? && Open(img).value.assetsStart == 10
      && 10 < q <= |img| && q < 0x40_0000 && Step(img, 10, want) == Looking(q)
      && img[q..] == EntryHead(len, 0, Some(name)) + [CR, LF] + tail
  {
    hide NameOk, Loads, ImageFrom, ChunksBytes, Step, Packs, EntryBytes, MemoryOk, CrcOk, Open, EntryHead, Heads;
    var x, rest := Entry(None, ChunksBytes(cs, crc)), EntryHead(len, 0, Some(name)) + [CR, LF] + tail;
    var img := ImageFrom(x, rest, crc);
    DirectoryLoads(None, cs, rest, data, m, crc);
    PackedLoadable(cs, data);
    BodyLength(cs, data, 0, crc);
    OpenDirectory(x, rest, crc);
    HeadsDirectory(Open(img).value, |x.data|);
    ImageFromEntry(x, rest, crc);
    EntryShort(x, crc);
    EntryStep(img, 10, x, rest, want, crc);
    q := 10 + |EntryBytes(x, crc)|;
  }

  lemma HeadsDirectory(p: Pump, len: nat)
    requires Heads(p, len)
    ensures p.assetsStart == 10
  {
  }

  lemma ImageFromEntry(x: Entry, rest: seq<u8>, crc: Crc)
    ensures ImageFrom(x, rest, crc)[10..] == EntryBytes(x, crc) + rest && |ImageFrom(x, rest, crc)| >= 10
  {
  }

  lemma EntryShort(x: Entry, crc: Crc)
    requires |x.data| < WORD && x.name.None?
    ensures 0 < |EntryBytes(x, crc)| <= 24 + |x.data|
  {
    HeadInline(|x.data|, Checksum(crc, x.data), None);
  }

  /** The length that takes the scan from the end of a header line back to its start. */
  function LoopLength(name: Text): nat
    requires |name| < 0x1000
  {
    WORD - 24 - |name|
  }

  /** A loaded image on which looking for anything but its asset never ends: the position after its entry
      wraps to the entry itself. */
  lemma LoadedLoops(cs: seq<Chunk>, name: Text, tail: seq<u8>, want: Text, data: Sparse, m: Memory, crc: Crc, n: nat)
    requires Packs(cs, data, 0, TOP) && MemoryOk(m) && (exists a :: a in data) && CrcOk(crc)
    requires forall a :: a in data ==> 0 <= a < RAMS
    requires NameOk(name) && !SameName(name, want)
    ensures var img := Claiming(cs, LoopLength(name), name, tail, crc);
      && Loads(img, m, data, crc)
      && After(img, Looking(10), want, n).Looking? && !Ends(img, 10, want)
  {
    hide NameOk, SameName, Loads, Claiming, Step, Packs, MemoryOk, CrcOk, EntryHead, Inline, Open;
    NameShort(name);
    var len := LoopLength(name);
    var img := Claiming(cs, len, name, tail, crc);
    var q := ClaimingLoads(cs, len, name, tail, want, data, m, crc);
    HeadStep(img, q, len, 0, Some(name), tail, want);
    HeadInline(len, 0, Some(name));
    assert (q + |EntryHead(len, 0, Some(name))| + 2 + len) % WORD == q;
    forall k: nat
      ensures After(img, Looking(10), want, k).Looking?
    {
      if k > 0 {
        EntryLoops(img, q, want, k - 1);
      }
    }
  }

  const FAR := 0x7FFFFFFF

  /** A loaded image with an asset that says it is 2^32 - 1 bytes: its first byte read, and then one 2^31 - 1
      on, the second is the file's byte after the first, and no byte of the window's place. */
  method ReadsElsewhere(cs: seq<Chunk>, name: Text, tail: seq<u8>, crc: Crc, ghost data: Sparse, ghost m: Memory)
    returns (w: Window, x: seq<u8>, y: seq<u8>)
    requires Packs(cs, data, 0, TOP) && MemoryOk(m) && (exists a :: a in data) && CrcOk(crc)
    requires forall a :: a in data ==> 0 <= a < RAMS
    requires NameOk(name) && 2 <= |tail| <= 0x10000
    ensures var img := Claiming(cs, WORD - 1, name, tail, crc);
      && Loads(img, m, data, crc) && Find(img, 10, name) == Some(Range(w.base, w.len)) && w.pos == FAR
      && x == [tail[0]] && y == [tail[1]] && !Slice(img, w, y)
  {
    hide NameOk, Loads, Claiming, Packs, MemoryOk, CrcOk, Find, Ends, EntryHead, Open, Seekable, Source, Slice;
    var img := Claiming(cs, WORD - 1, name, tail, crc);
    ghost var at := FarAsset(cs, name, tail, data, m, crc);
    var drive := new AssetDrive(img, 10);
    var desc := drive.Open(name);
    FarWindow(at, |img|, drive.fd);
    var ok, pos;
    ok, x := drive.Read(desc, 1, 1);
    assert drive.fd == at + 1;
    ok, pos := drive.Lseek(desc, SeekSet, FAR);
    w := drive.windows[desc];
    FarWindow(at, |img|, drive.fd);
    ok, y := drive.Read(desc, 1, 1);
  }

  lemma FarAsset(cs: seq<Chunk>, name: Text, tail: seq<u8>, data: Sparse, m: Memory, crc: Crc) returns (at: nat)
    requires Packs(cs, data, 0, TOP) && MemoryOk(m) && (exists a :: a in data) && CrcOk(crc)
    requires forall a :: a in data ==> 0 <= a < RAMS
    requires NameOk(name) && 2 <= |tail| <= 0x10000
    ensures var img := Claiming(cs, WORD - 1, name, tail, crc);
      && Loads(img, m, data, crc) && Ends(img, 10, name) && Find(img, 10, name) == Some(Range(at, WORD - 1))
      && 0 < at && at + 2 <= |img| < SEEK_MAX && img[at] == tail[0] && img[at + 1] == tail[1]
  {
    hide NameOk, Loads, Claiming, Packs, MemoryOk, CrcOk, Step, EntryHead, Open, SameName, Inline;
    var img := Claiming(cs, WORD - 1, name, tail, crc);
    var q := ClaimingLoads(cs, WORD - 1, name, tail, name, data, m, crc);
    HeadStep(img, q, WORD - 1, 0, Some(name), tail, name);
    NameShort(name);
    SameNames(name);
    HeadInline(WORD - 1, 0, Some(name));
    at := q + |EntryHead(WORD - 1, 0, Some(name))| + 2;
    assert img[at..][0] == img[at] && img[at..][1] == img[at + 1];
    assert After(img, Looking(10), name, 2) == Found(Range(at, WORD - 1)) by { TwoSteps(img, q, name); }
    FindStopped(img, 10, name, 2);
  }

  lemma NameShort(name: Text)
    requires NameOk(name)
    ensures name != [] && Inline(name) && |name| < 0x1000
  {
  }

  lemma SameNames(name: Text)
    ensures SameName(name, name)
  {
  }

  /** A window of 2^32 - 1 bytes at its start, and 2^31 - 1 bytes on. */
  lemma FarWindow(base: nat, size: nat, fd: nat)
    requires 0 < base <= size < SEEK_MAX && fd <= size
    ensures var v, w := Window(true, base, WORD - 1, 0), Window(true, base, WORD - 1, FAR);
      Seekable(v) && Source(v, size, fd) == base && !Seekable(w) && Source(w, size, fd) == fd
  {
  }

  lemma TwoSteps(img: seq<u8>, q: nat, name: Text)
    requires Step(img, 10, name) == Looking(q) && !Step(img, q, name).Looking?
    ensures After(img, Looking(10), name, 2) == Step(img, q, name)
  {
    hide Step;
  }

  // ---------------- names and blanks ----------------

  /** The names a packed asset is found by: at most 487 ASCII characters, none of them a zero or a newline, with
      no blank in front. */
  lemma NameMeans(name: Text)
    ensures NameOk(name) <==>
            && 1 <= |name| <= 487 && (forall i :: 0 <= i < |name| ==> name[i] < 128 && name[i] != 0 && name[i] != 10)
            && name[0] != 32 && name[0] != 9
  {
  }

  /** Spaces and tabs before a name are skipped, and nothing else is. */
  lemma {:induction false} BlanksMean(s: Text) returns (n: nat)
    ensures n <= |s| && SkipBlanks(s) == s[n..] && (forall i :: 0 <= i < n ==> s[i] == 32 || s[i] == 9)
    ensures n < |s| ==> s[n] != 32 && s[n] != 9
    decreases |s|
  {
    n := 0;
    if s != [] && (s[0] == 32 || s[0] == 9) {
      n := BlanksMean(s[1..]);
      assert forall i :: 0 < i <= n ==> s[i] == s[1..][i - 1];
      n := n + 1;
    }
  }

  /** What an entry's header line says: the number after "#>", and the name after a second number and any blanks;
      a line without them is none. */
  lemma HeadingMeans(line: Text)
    requires forall i :: 0 <= i < |line| ==> line[i] != 0
    ensures ParseEntry(line) ==
            if |line| < 2 || line[0] != 35 || line[1] != 62 || ParseUint(line[2..]).None?
               || ParseUint(ParseUint(line[2..]).value.rest).None? then None
            else
              Some(Heading(ParseUint(line[2..]).value.value,
                           SkipBlanks(ParseUint(ParseUint(line[2..]).value.rest).value.rest)))
  {
    WholeString(line);
    hide ParseUint, CString, SkipBlanks;
  }
}
