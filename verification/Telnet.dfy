/** The telnet stream of tools/rp6502.py: user bytes, negotiations and subnegotiations told apart
    however the stream is cut, and negotiation by the Q method (section 7 of RFC 1143). */
module TelnetStream {
  import opened Common

  // Commands (the "TELNET COMMAND STRUCTURE" section of RFC 854)
  const IAC: u8 := 0xFF
  const DONT: u8 := 0xFE
  const DO: u8 := 0xFD
  const WONT: u8 := 0xFC
  const WILL: u8 := 0xFB
  const SB: u8 := 0xFA
  const SE: u8 := 0xF0

  /** What the stream carries. */
  datatype Item = User(b: u8) | Nego(cmd: u8, opt: u8) | Subneg | Plain(cmd: u8)

  datatype Unit = Unit(len: nat, item: Item)

  datatype Scanned = Scanned(items: seq<Item>, rest: seq<u8>)

  predicate Negotiates(cmd: u8) { cmd == DO || cmd == DONT || cmd == WILL || cmd == WONT }

  /** Where a subnegotiation scanned up to j ends, past its IAC SE. */
  function SubEnd(d: seq<u8>, j: nat): (end: Option<nat>)
    ensures end.Some? ==> j + 2 <= end.value <= |d|
    decreases |d| - j
  {
    if j + 1 >= |d| then None
    else if d[j] != IAC then SubEnd(d, j + 1)
    else if d[j + 1] == SE then Some(j + 2)
    else SubEnd(d, j + 2)
  }

  /** The first item of d, once all of it is there. */
  function First(d: seq<u8>): (u: Option<Unit>)
    ensures u.Some? ==> 0 < u.value.len <= |d|
  {
    if |d| == 0 then None
    else if d[0] != IAC then Some(Unit(1, User(d[0])))
    else if |d| == 1 then None
    else if d[1] == IAC then Some(Unit(2, User(IAC)))
    else if Negotiates(d[1]) then (if |d| == 2 then None else Some(Unit(3, Nego(d[1], d[2]))))
    else if d[1] == SB then (match SubEnd(d, 2) case None => None case Some(end) => Some(Unit(end, Subneg)))
    else Some(Unit(2, Plain(d[1])))
  }

  /** Every whole item, and what is left of one. */
  function Scan(d: seq<u8>): Scanned
    decreases |d|
  {
    match First(d)
    case None => Scanned([], d)
    case Some(u) =>
      var s := Scan(d[u.len..]);
      Scanned([u.item] + s.items, s.rest)
  }

  // ---------------- cutting the stream ----------------

  lemma {:induction false} SubEndMore(d: seq<u8>, e: seq<u8>, j: nat)
    requires SubEnd(d, j).Some?
    ensures SubEnd(d + e, j) == SubEnd(d, j)
    decreases |d| - j
  {
    if d[j] != IAC {
      SubEndMore(d, e, j + 1);
    } else if d[j + 1] != SE {
      SubEndMore(d, e, j + 2);
    }
  }

  /** A whole item stays what it is, whatever follows. */
  lemma FirstMore(d: seq<u8>, e: seq<u8>)
    requires First(d).Some?
    ensures First(d + e) == First(d)
  {
    if |d| >= 2 && d[0] == IAC && d[1] == SB {
      SubEndMore(d, e, 2);
    }
  }

  /** Scanning on from what a cut left gives what scanning the whole gives. */
  lemma {:induction false} ScanSplit(d: seq<u8>, e: seq<u8>)
    ensures var a := Scan(d);
      var b := Scan(a.rest + e);
      Scan(d + e) == Scanned(a.items + b.items, b.rest)
    decreases |d|
  {
    hide First, Scan;
    if First(d).Some? {
      var n, item := First(d).value.len, First(d).value.item;
      FirstMore(d, e);
      ScanSplit(d[n..], e);
      assert (d + e)[n..] == d[n..] + e;
      ScanStep(d, n, item, d[n..]);
      ScanStep(d + e, n, item, d[n..] + e);
      var b, c := Scan(d[n..]), Scan(Scan(d[n..]).rest + e);
      assert [item] + (b.items + c.items) == ([item] + b.items) + c.items;
    } else {
      ScanStops(d);
      assert [] + Scan(d + e).items == Scan(d + e).items;
    }
  }

  lemma ScanStops(d: seq<u8>)
    requires First(d).None?
    ensures Scan(d) == Scanned([], d)
  {
    hide First;
  }

  lemma ScanStep(d: seq<u8>, n: nat, item: Item, e: seq<u8>)
    requires First(d) == Some(Unit(n, item)) && n <= |d| && d[n..] == e
    ensures Scan(d) == Scanned([item] + Scan(e).items, Scan(e).rest)
  {
    hide First;
  }

  /** The scanner fed chunk by chunk, starting with pending. */
  function ScanChunks(pending: seq<u8>, chunks: seq<seq<u8>>): Scanned
    decreases |chunks|
  {
    if chunks == [] then Scanned([], pending)
    else
      var a := Scan(pending + chunks[0]);
      var b := ScanChunks(a.rest, chunks[1..]);
      Scanned(a.items + b.items, b.rest)
  }

  /** Any cutting of a stream gives the same items in the same order. */
  lemma {:induction false} AnyCut(pending: seq<u8>, chunks: seq<seq<u8>>)
    requires Scan(pending) == Scanned([], pending)
    ensures ScanChunks(pending, chunks) == Scan(pending + Concat(chunks))
    decreases |chunks|
  {
    hide Scan, First, ScanChunks, Concat;
    if chunks != [] {
      var d, e := pending + chunks[0], Concat(chunks[1..]);
      RestIsRest(d);
      AnyCut(Scan(d).rest, chunks[1..]);
      ScanSplit(d, e);
      ChunksFirst(pending, chunks);
      assert pending + (chunks[0] + e) == d + e;
    } else {
      ChunksNone(pending);
    }
  }

  lemma ChunksFirst(pending: seq<u8>, chunks: seq<seq<u8>>)
    requires chunks != []
    ensures Concat(chunks) == chunks[0] + Concat(chunks[1..])
    ensures var a := Scan(pending + chunks[0]);
      var b := ScanChunks(a.rest, chunks[1..]);
      ScanChunks(pending, chunks) == Scanned(a.items + b.items, b.rest)
  {
    hide Scan;
  }

  lemma ChunksNone(pending: seq<u8>)
    ensures ScanChunks(pending, []) == Scanned([], pending) && pending + Concat([]) == pending
  {
  }

  /** What is left holds no whole item. */
  lemma {:induction false} RestIsRest(d: seq<u8>)
    ensures Scan(Scan(d).rest) == Scanned([], Scan(d).rest)
    decreases |d|
  {
    if First(d).Some? {
      RestIsRest(d[First(d).value.len..]);
    }
  }

  // ---------------- writing ----------------

  /** User data with every IAC doubled. */
  function Escaped(data: seq<u8>): seq<u8> {
    if data == [] then [] else (if data[0] == IAC then [IAC, IAC] else [data[0]]) + Escaped(data[1..])
  }

  /** What a sender puts on the wire between other things. */
  datatype Sent = Data(bytes: seq<u8>) | Command(cmd: u8, opt: u8) | Sub(payload: seq<u8>) | Short(cmd: u8)

  predicate SentOk(x: Sent) {
    match x
    case Command(cmd, _) => Negotiates(cmd)
    case Short(cmd) => cmd != IAC && cmd != SB && !Negotiates(cmd)
    case _ => true
  }

  function Wire(x: Sent): seq<u8> {
    match x
    case Data(b) => Escaped(b)
    case Command(cmd, opt) => [IAC, cmd, opt]
    case Sub(p) => [IAC, SB] + Escaped(p) + [IAC, SE]
    case Short(cmd) => [IAC, cmd]
  }

  function WireAll(xs: seq<Sent>): seq<u8> {
    if xs == [] then [] else Wire(xs[0]) + WireAll(xs[1..])
  }

  function Users(b: seq<u8>): (r: seq<Item>)
    ensures |r| == |b| && forall i :: 0 <= i < |b| ==> r[i] == User(b[i])
  {
    if b == [] then [] else [User(b[0])] + Users(b[1..])
  }

  function Heard(x: Sent): seq<Item> {
    match x
    case Data(b) => Users(b)
    case Command(cmd, opt) => [Nego(cmd, opt)]
    case Sub(_) => [Subneg]
    case Short(cmd) => [Plain(cmd)]
  }

  function HeardAll(xs: seq<Sent>): seq<Item> {
    if xs == [] then [] else Heard(xs[0]) + HeardAll(xs[1..])
  }

  lemma {:induction false} EscapedScans(data: seq<u8>, e: seq<u8>)
    ensures Scan(Escaped(data) + e) == Scanned(Users(data) + Scan(e).items, Scan(e).rest)
    decreases |data|
  {
    if data == [] {
      assert Escaped(data) + e == e;
      assert Users(data) + Scan(e).items == Scan(e).items;
    } else {
      hide First, Scan;
      var rest := Escaped(data[1..]) + e;
      EscapedFirst(data, e);
      ScanStep(Escaped(data) + e, if data[0] == IAC then 2 else 1, User(data[0]), rest);
      EscapedScans(data[1..], e);
      hide Escaped;
      assert [User(data[0])] + (Users(data[1..]) + Scan(e).items) == Users(data) + Scan(e).items;
    }
  }

  lemma EscapedFirst(data: seq<u8>, e: seq<u8>)
    requires data != []
    ensures var w, n := Escaped(data) + e, if data[0] == IAC then 2 else 1;
      First(w) == Some(Unit(n, User(data[0]))) && n <= |w| && w[n..] == Escaped(data[1..]) + e
  {
    hide First;
    var t := Escaped(data[1..]);
    var head: seq<u8> := if data[0] == IAC then [IAC, IAC] else [data[0]];
    assert Escaped(data) == head + t;
    hide Escaped;
    Grouped(head, t, e);
    FirstUser(data[0], t + e);
  }

  lemma Grouped(a: seq<u8>, b: seq<u8>, c: seq<u8>)
    ensures (a + b) + c == a + (b + c)
  {
  }

  lemma FirstUser(b: u8, x: seq<u8>)
    ensures b != IAC ==> First([b] + x) == Some(Unit(1, User(b))) && ([b] + x)[1..] == x
    ensures First([IAC, IAC] + x) == Some(Unit(2, User(IAC))) && ([IAC, IAC] + x)[2..] == x
  {
    hide SubEnd;
    var w := [IAC, IAC] + x;
    assert w[0] == IAC && w[1] == IAC;
  }

  /** An escaped payload never ends its subnegotiation early. */
  lemma {:induction false} EscapedSub(p: seq<u8>, d: seq<u8>, e: seq<u8>, j: nat)
    requires j <= |d| && d[j..] == Escaped(p) + [IAC, SE] + e
    ensures SubEnd(d, j) == Some(|d| - |e|)
    decreases |p|
  {
    if p != [] {
      var n := if p[0] == IAC then 2 else 1;
      assert d[j + n..] == d[j..][n..];
      assert Escaped(p)[n..] == Escaped(p[1..]);
      assert (Escaped(p) + [IAC, SE] + e)[n..] == Escaped(p[1..]) + [IAC, SE] + e;
      assert d[j] == d[j..][0] && d[j + 1] == d[j..][1];
      EscapedSub(p[1..], d, e, j + n);
    } else {
      assert d[j] == d[j..][0] && d[j + 1] == d[j..][1];
    }
  }

  lemma SentScans(x: Sent, e: seq<u8>)
    requires SentOk(x)
    ensures Scan(Wire(x) + e) == Scanned(Heard(x) + Scan(e).items, Scan(e).rest)
  {
    hide Scan, Escaped, SubEnd;
    match x
    case Data(b) => EscapedScans(b, e);
    case Command(cmd, opt) => ScanStep(Wire(x) + e, 3, Nego(cmd, opt), e);
    case Short(cmd) => ScanStep(Wire(x) + e, 2, Plain(cmd), e);
    case Sub(p) => SubScans(p, e);
  }

  lemma SubScans(p: seq<u8>, e: seq<u8>)
    ensures Scan(Wire(Sub(p)) + e) == Scanned([Subneg] + Scan(e).items, Scan(e).rest)
  {
    hide Scan, Escaped, SubEnd;
    var d := Wire(Sub(p)) + e;
    assert d[2..] == Escaped(p) + [IAC, SE] + e;
    EscapedSub(p, d, e, 2);
    assert d[|Wire(Sub(p))|..] == e;
    ScanStep(d, |Wire(Sub(p))|, Subneg, e);
  }

  /** Data, commands and subnegotiations come back as they were sent, each IAC once. */
  lemma {:induction false} WireScans(xs: seq<Sent>)
    requires forall i :: 0 <= i < |xs| ==> SentOk(xs[i])
    ensures Scan(WireAll(xs)) == Scanned(HeardAll(xs), [])
    decreases |xs|
  {
    if xs != [] {
      hide Scan, Heard, Wire, SentOk;
      WireScans(xs[1..]);
      SentScans(xs[0], WireAll(xs[1..]));
    }
  }

  // ---------------- byte by byte ----------------

  /** The codes of RFC 854: 255 is sent twice, 251 to 254 take an option after them, 250 opens what 255 240
      closes, and any other stands alone. */
  lemma FirstMeans(d: seq<u8>, p: seq<u8>, e: seq<u8>)
    ensures d != [] && d[0] != 255 ==> First(d) == Some(Unit(1, User(d[0])))
    ensures |d| >= 2 && d[0] == 255 && d[1] == 255 ==> First(d) == Some(Unit(2, User(255)))
    ensures |d| >= 3 && d[0] == 255 && 251 <= d[1] <= 254 ==> First(d) == Some(Unit(3, Nego(d[1], d[2])))
    ensures |d| >= 2 && d[0] == 255 && d[1] < 250 ==> First(d) == Some(Unit(2, Plain(d[1])))
    ensures d == [] || d == [255] || (|d| == 2 && d[0] == 255 && 251 <= d[1] <= 254) ==> First(d) == None
    ensures First([255, 250] + Escaped(p) + [255, 240] + e) == Some(Unit(|Escaped(p)| + 4, Subneg))
  {
    hide SubEnd, Escaped;
    var w := [255, 250] + Escaped(p) + [255, 240] + e;
    assert w[2..] == Escaped(p) + [IAC, SE] + e;
    EscapedSub(p, w, e, 2);
    assert w[0] == 255 && w[1] == 250;
  }

  /** Only 255 is doubled, and bytes are escaped one by one. */
  lemma {:induction false} EscapedMeans(a: seq<u8>, b: seq<u8>, x: u8)
    ensures Escaped([x]) == if x == 255 then [255, 255] else [x]
    ensures Escaped(a + b) == Escaped(a) + Escaped(b)
    decreases |a|
  {
    assert [x][1..] == [];
    assert Escaped([]) == [];
    if a == [] {
      assert a + b == b;
    } else {
      EscapedMeans(a[1..], b, x);
      assert (a + b)[1..] == a[1..] + b && (a + b)[0] == a[0];
    }
  }
}
