/** The console's telnet end (TelnetDevice of tools/rp6502.py). */
module TelnetConsole {
  import opened Common
  import opened TelnetStream
  import opened TelnetNegotiation

  const BINARY: u8 := 0

  /** Policy: which options are accepted on either side. */
  predicate Want(opt: u8) { opt == BINARY }

  function MsgBytes(ms: seq<Msg>): seq<u8> {
    if ms == [] then [] else [IAC, ms[0].cmd, ms[0].opt] + MsgBytes(ms[1..])
  }

  function UserBytes(items: seq<Item>): seq<u8> {
    if items == [] then [] else (if items[0].User? then [items[0].b] else []) + UserBytes(items[1..])
  }

  /** The options after every negotiation among items, in order, and the answers sent. */
  function Negotiated(o: Opts, items: seq<Item>): (r: (Opts, seq<u8>))
    decreases |items|
  {
    if items == [] then (o, [])
    else if items[0].Nego? && Negotiates(items[0].cmd) then
      var x := Recv(o, Msg(items[0].cmd, items[0].opt), Want(items[0].opt));
      var rest := Negotiated(x.0, items[1..]);
      (rest.0, MsgBytes(x.1) + rest.1)
    else Negotiated(o, items[1..])
  }

  lemma {:induction false} UserAppend(a: seq<Item>, b: seq<Item>)
    ensures UserBytes(a + b) == UserBytes(a) + UserBytes(b)
  {
    if a == [] {
      assert a + b == b;
    } else {
      assert (a + b)[1..] == a[1..] + b && (a + b)[0] == a[0];
      UserAppend(a[1..], b);
      var h: seq<u8> := if a[0].User? then [a[0].b] else [];
      UserHead(a + b, h, a[1..] + b);
      UserHead(a, h, a[1..]);
      hide UserBytes;
      assert h + (UserBytes(a[1..]) + UserBytes(b)) == (h + UserBytes(a[1..])) + UserBytes(b);
    }
  }

  lemma UserHead(a: seq<Item>, h: seq<u8>, rest: seq<Item>)
    requires a != [] && a[1..] == rest && h == if a[0].User? then [a[0].b] else []
    ensures UserBytes(a) == h + UserBytes(rest)
  {
  }

  lemma {:induction false} NegotiatedAppend(o: Opts, a: seq<Item>, b: seq<Item>)
    ensures var x := Negotiated(o, a);
      var y := Negotiated(x.0, b);
      Negotiated(o, a + b) == (y.0, x.1 + y.1)
    decreases |a|
  {
    hide Recv, MsgBytes;
    if a == [] {
      assert a + b == b;
      assert [] + Negotiated(o, b).1 == Negotiated(o, b).1;
    } else {
      assert (a + b)[1..] == a[1..] + b && (a + b)[0] == a[0];
      if a[0].Nego? && Negotiates(a[0].cmd) {
        var x := Recv(o, Msg(a[0].cmd, a[0].opt), Want(a[0].opt));
        NegotiatedAppend(x.0, a[1..], b);
        var y := Negotiated(x.0, a[1..]);
        var z := Negotiated(y.0, b);
        assert MsgBytes(x.1) + (y.1 + z.1) == (MsgBytes(x.1) + y.1) + z.1;
      } else {
        NegotiatedAppend(o, a[1..], b);
      }
    }
  }

  class TelnetDevice {
    var pending: seq<u8>   // the start of an item cut short
    var opts: Opts
    var sent: seq<u8>      // everything put on the wire

    constructor ()
      ensures pending == [] && opts == map[] && sent == []
    {
      pending, opts, sent := [], map[], [];
    }

    method SendIac(cmd: u8, opt: u8)
      modifies this`sent
      ensures sent == old(sent) + MsgBytes([Msg(cmd, opt)])
    {
      sent := sent + [IAC, cmd, opt];
    }

    /** Requests an option on our side. */
    method OfferWill(opt: u8)
      modifies this`opts, this`sent
      ensures (opts, sent) == (Offer(old(opts), opt, true).0, old(sent) + MsgBytes(Offer(old(opts), opt, true).1))
      ensures sent == old(sent) + (if SideOf(old(opts), opt).us == No then [255, 251, opt] else [])
    {
      var s := SideOf(opts, opt);
      assert sent + [] == sent;
      if s.us == No {
        opts := opts[opt := s.(us := WantYes)];
        SendIac(WILL, opt);
      }
    }

    /** Requests an option on the peer's side. */
    method OfferDo(opt: u8)
      modifies this`opts, this`sent
      ensures (opts, sent) == (Offer(old(opts), opt, false).0, old(sent) + MsgBytes(Offer(old(opts), opt, false).1))
      ensures sent == old(sent) + (if SideOf(old(opts), opt).him == No then [255, 253, opt] else [])
    {
      var s := SideOf(opts, opt);
      assert sent + [] == sent;
      if s.him == No {
        opts := opts[opt := s.(him := WantYes)];
        SendIac(DO, opt);
      }
    }

    method RecvDo(opt: u8)
      modifies this`opts, this`sent
      ensures var r := Recv(old(opts), Msg(DO, opt), Want(opt)); opts == r.0 && sent == old(sent) + MsgBytes(r.1)
      ensures var was, now := SideOf(old(opts), opt), SideOf(opts, opt);
        && now == Side(if was.us == No && opt != 0 then No else Yes, was.him)
        && sent == old(sent) + (if was.us != No then [] else if opt == 0 then [255, 251, opt] else [255, 252, opt])
      ensures forall o :: o != opt ==> SideOf(opts, o) == SideOf(old(opts), o)
    {
      var s := SideOf(opts, opt);
      opts := opts[opt := s];
      if s.us == No {
        if Want(opt) {
          opts := opts[opt := s.(us := Yes)];
          SendIac(WILL, opt);
        } else {
          SendIac(WONT, opt);
        }
      } else if s.us == WantYes {
        opts := opts[opt := s.(us := Yes)];
      }
    }

    method RecvDont(opt: u8)
      modifies this`opts, this`sent
      ensures var r := Recv(old(opts), Msg(DONT, opt), Want(opt)); opts == r.0 && sent == old(sent) + MsgBytes(r.1)
      ensures var was, now := SideOf(old(opts), opt), SideOf(opts, opt);
        && now == Side(No, was.him) && sent == old(sent) + (if was.us == Yes then [255, 252, opt] else [])
      ensures forall o :: o != opt ==> SideOf(opts, o) == SideOf(old(opts), o)
    {
      var s := SideOf(opts, opt);
      opts := opts[opt := s];
      if s.us == Yes {
        opts := opts[opt := s.(us := No)];
        SendIac(WONT, opt);
      } else if s.us == WantYes {
        opts := opts[opt := s.(us := No)];
      }
    }

    method RecvWill(opt: u8)
      modifies this`opts, this`sent
      ensures var r := Recv(old(opts), Msg(WILL, opt), Want(opt)); opts == r.0 && sent == old(sent) + MsgBytes(r.1)
      ensures var was, now := SideOf(old(opts), opt), SideOf(opts, opt);
        && now == Side(was.us, if was.him == No && opt != 0 then No else Yes)
        && sent == old(sent) + (if was.him != No then [] else if opt == 0 then [255, 253, opt] else [255, 254, opt])
      ensures forall o :: o != opt ==> SideOf(opts, o) == SideOf(old(opts), o)
    {
      var s := SideOf(opts, opt);
      opts := opts[opt := s];
      if s.him == No {
        if Want(opt) {
          opts := opts[opt := s.(him := Yes)];
          SendIac(DO, opt);
        } else {
          SendIac(DONT, opt);
        }
      } else if s.him == WantYes {
        opts := opts[opt := s.(him := Yes)];
      }
    }

    method RecvWont(opt: u8)
      modifies this`opts, this`sent
      ensures var r := Recv(old(opts), Msg(WONT, opt), Want(opt)); opts == r.0 && sent == old(sent) + MsgBytes(r.1)
      ensures var was, now := SideOf(old(opts), opt), SideOf(opts, opt);
        && now == Side(was.us, No) && sent == old(sent) + (if was.him == Yes then [255, 254, opt] else [])
      ensures forall o :: o != opt ==> SideOf(opts, o) == SideOf(old(opts), o)
    {
      var s := SideOf(opts, opt);
      opts := opts[opt := s];
      if s.him == Yes {
        opts := opts[opt := s.(him := No)];
        SendIac(DONT, opt);
      } else if s.him == WantYes {
        opts := opts[opt := s.(him := No)];
      }
    }

    method Negotiate(cmd: u8, opt: u8)
      requires Negotiates(cmd)
      modifies this`opts, this`sent
      ensures var r := Recv(old(opts), Msg(cmd, opt), Want(opt)); opts == r.0 && sent == old(sent) + MsgBytes(r.1)
    {
      if cmd == DO {
        RecvDo(opt);
      } else if cmd == DONT {
        RecvDont(opt);
      } else if cmd == WILL {
        RecvWill(opt);
      } else {
        RecvWont(opt);
      }
    }

    /** The user data in incoming bytes; commands are acted on as they come (_strip_iac). */
    method StripIac(chunk: seq<u8>) returns (out: seq<u8>)
      modifies this`pending, this`opts, this`sent
      ensures var s := Scan(old(pending) + chunk);
        && out == UserBytes(s.items) && pending == s.rest
        && opts == Negotiated(old(opts), s.items).0 && sent == old(sent) + Negotiated(old(opts), s.items).1
    {
      hide Scan, Negotiated, UserBytes, First, Recv, MsgBytes;
      var data := pending + chunk;
      pending := [];
      out := [];
      var i := 0;
      ghost var items: seq<Item> := [];
      Nothing(opts);
      assert data[0..] == data;
      while i < |data|
        invariant 0 <= i <= |data|
        invariant Scan(data) == Scanned(items + Scan(data[i..]).items, Scan(data[i..]).rest)
        invariant out == UserBytes(items) && pending == []
        invariant opts == Negotiated(old(opts), items).0 && sent == old(sent) + Negotiated(old(opts), items).1
        decreases |data| - i
      {
        var n, item := FirstItem(data, i);
        if n == 0 {
          pending := data[i..];
          Rest(data[i..]);
          assert items + [] == items;
          return;
        }
        ScanStep(data[i..], n, item, data[i + n..]);
        ItemOn(old(opts), items, item, Scan(data[i + n..]).items);
        match item {
          case User(b) => out := out + [b];
          case Nego(cmd, opt) => Negotiate(cmd, opt);
          case _ =>
        }
        items := items + [item];
        i := i + n;
      }
      Rest(data[i..]);
      assert items + [] == items;
    }

    /** The item at i: how long it is, 0 when some of it is still to come. */
    method FirstItem(data: seq<u8>, i: nat) returns (n: nat, item: Item)
      requires i < |data|
      ensures n == 0 ==> First(data[i..]) == None
      ensures n > 0 ==> i + n <= |data| && First(data[i..]) == Some(Unit(n, item)) && data[i..][n..] == data[i + n..]
      ensures n > 0 && item.Nego? ==> Negotiates(item.cmd)
    {
      hide SubEnd;
      ghost var d := data[i..];
      if data[i] != IAC {
        return 1, User(data[i]);
      }
      if i + 1 >= |data| {
        return 0, Subneg;
      }
      var cmd := data[i + 1];
      if cmd == IAC {
        return 2, User(0xFF);
      } else if Negotiates(cmd) {
        if i + 2 >= |data| {
          return 0, Subneg;
        }
        return 3, Nego(cmd, data[i + 2]);
      } else if cmd == SB {
        var end := SkipSub(data, i);
        return if end == 0 then 0 else end - i, Subneg;
      }
      return 2, Plain(cmd);
    }

    /** Past the IAC SE of the subnegotiation at i, or 0. */
    method SkipSub(data: seq<u8>, i: nat) returns (end: nat)
      requires i + 2 <= |data|
      ensures end == 0 <==> SubEnd(data[i..], 2) == None
      ensures end != 0 ==> i < end <= |data| && SubEnd(data[i..], 2) == Some(end - i)
    {
      var j := i + 2;
      while j + 1 < |data|
        invariant i + 2 <= j <= |data|
        invariant SubEnd(data[i..], 2) == SubEnd(data[i..], j - i)
        decreases |data| - j
      {
        assert data[i..][j - i] == data[j] && data[i..][j - i + 1] == data[j + 1];
        if data[j] == IAC {
          if data[j + 1] == SE {
            return j + 2;
          }
          j := j + 2;
        } else {
          j := j + 1;
        }
      }
      return 0;
    }

    /** User data goes out with every IAC doubled. */
    method Write(data: seq<u8>)
      modifies this`sent
      ensures sent == old(sent) + Wire(Data(data))
    {
      var out := [];
      for i := 0 to |data|
        invariant out + Escaped(data[i..]) == Escaped(data)
      {
        assert data[i..][1..] == data[i + 1..];
        out := out + if data[i] == IAC then [IAC, IAC] else [data[i]];
      }
      assert out + [] == out;
      sent := sent + out;
    }
  }

  lemma Nothing(o: Opts)
    ensures UserBytes([]) == [] && Negotiated(o, []) == (o, [])
    ensures forall d :: Scan(d) == Scanned([] + Scan(d).items, Scan(d).rest)
  {
    hide Scan;
    forall d
      ensures Scan(d) == Scanned([] + Scan(d).items, Scan(d).rest)
    {
      assert [] + Scan(d).items == Scan(d).items;
    }
  }

  lemma Rest(d: seq<u8>)
    ensures First(d) == None || d == [] ==> Scan(d) == Scanned([], d)
  {
    hide SubEnd;
  }

  /** One item more. */
  lemma ItemOn(o: Opts, items: seq<Item>, item: Item, rest: seq<Item>)
    ensures items + ([item] + rest) == (items + [item]) + rest
    ensures UserBytes(items + [item]) == UserBytes(items) + (if item.User? then [item.b] else [])
    ensures var x := Negotiated(o, items);
      if item.Nego? && Negotiates(item.cmd) then
        var r := Recv(x.0, Msg(item.cmd, item.opt), Want(item.opt));
        Negotiated(o, items + [item]) == (r.0, x.1 + MsgBytes(r.1))
      else Negotiated(o, items + [item]) == x
  {
    hide Recv, MsgBytes;
    UserAppend(items, [item]);
    NegotiatedAppend(o, items, [item]);
    assert [item][1..] == [];
    assert UserBytes([item]) == (if item.User? then [item.b] else []);
    OneNegotiated(Negotiated(o, items).0, item);
    assert Negotiated(o, items).1 + [] == Negotiated(o, items).1;
  }

  lemma OneNegotiated(o: Opts, item: Item)
    ensures Negotiated(o, [item]) ==
            if item.Nego? && Negotiates(item.cmd) then
              (Recv(o, Msg(item.cmd, item.opt), Want(item.opt)).0,
               MsgBytes(Recv(o, Msg(item.cmd, item.opt), Want(item.opt)).1))
            else (o, [])
  {
    hide Recv, MsgBytes;
    assert [item][1..] == [];
    if item.Nego? && Negotiates(item.cmd) {
      var x := Recv(o, Msg(item.cmd, item.opt), Want(item.opt));
      assert Negotiated(x.0, []) == (x.0, []);
      assert MsgBytes(x.1) + [] == MsgBytes(x.1);
    }
  }

  /** A device fed chunk by chunk: its options, what it has sent and what it has given its user. */
  datatype Fed = Fed(pending: seq<u8>, opts: Opts, sent: seq<u8>, out: seq<u8>)

  function Feed(s: Fed, chunks: seq<seq<u8>>): Fed
    decreases |chunks|
  {
    if chunks == [] then s
    else
      var x := Scan(s.pending + chunks[0]);
      var n := Negotiated(s.opts, x.items);
      Feed(Fed(x.rest, n.0, s.sent + n.1, s.out + UserBytes(x.items)), chunks[1..])
  }

  /** However the stream is cut, the device ends up as if it had come whole. */
  lemma {:induction false} FeedIsWhole(s: Fed, chunks: seq<seq<u8>>)
    requires Scan(s.pending) == Scanned([], s.pending)
    ensures Feed(s, chunks) == Feed(s, [Concat(chunks)])
    decreases |chunks|
  {
    hide Scan, Negotiated, UserBytes;
    FeedItems(s, chunks);
    FeedItems(s, [Concat(chunks)]);
    AnyCut(s.pending, chunks);
    AnyCut(s.pending, [Concat(chunks)]);
    assert Concat([Concat(chunks)]) == Concat(chunks) by {
      assert [Concat(chunks)][1..] == [];
      assert Concat(chunks) + [] == Concat(chunks);
    }
  }

  lemma {:induction false} FeedItems(s: Fed, chunks: seq<seq<u8>>)
    ensures var x := ScanChunks(s.pending, chunks);
      var n := Negotiated(s.opts, x.items);
      Feed(s, chunks) == Fed(x.rest, n.0, s.sent + n.1, s.out + UserBytes(x.items))
    decreases |chunks|
  {
    hide Scan;
    Nothing(s.opts);
    if chunks == [] {
      assert s.sent + [] == s.sent && s.out + [] == s.out;
    } else {
      var x := Scan(s.pending + chunks[0]);
      var n := Negotiated(s.opts, x.items);
      var t := Fed(x.rest, n.0, s.sent + n.1, s.out + UserBytes(x.items));
      FeedItems(t, chunks[1..]);
      var y := ScanChunks(x.rest, chunks[1..]);
      NegotiatedAppend(s.opts, x.items, y.items);
      UserAppend(x.items, y.items);
      hide Negotiated, UserBytes;
      var k := Negotiated(n.0, y.items);
      assert s.sent + (n.1 + k.1) == s.sent + n.1 + k.1;
      assert s.out + (UserBytes(x.items) + UserBytes(y.items)) == s.out + UserBytes(x.items) + UserBytes(y.items);
    }
  }

  /** The bytes of the data among what was sent. */
  function DataOf(xs: seq<Sent>): seq<u8> {
    if xs == [] then [] else (if xs[0].Data? then xs[0].bytes else []) + DataOf(xs[1..])
  }

  /** The user is given exactly the data sent, whatever else was sent between and however the stream was cut. */
  lemma {:induction false} Delivered(xs: seq<Sent>, s: Fed, chunks: seq<seq<u8>>)
    requires forall i :: 0 <= i < |xs| ==> SentOk(xs[i])
    requires s.pending == [] && Concat(chunks) == WireAll(xs)
    ensures Feed(s, chunks).out == s.out + DataOf(xs) && Feed(s, chunks).pending == []
  {
    hide Scan, Negotiated, UserBytes, WireAll, HeardAll, DataOf, Feed, Concat, SentOk, ScanChunks;
    FeedItems(s, chunks);
    ScanNothing();
    AnyCut([], chunks);
    assert [] + Concat(chunks) == Concat(chunks);
    WireScans(xs);
    DataHeard(xs);
  }

  lemma ScanNothing()
    ensures Scan([]) == Scanned([], [])
  {
  }

  lemma {:induction false} DataHeard(xs: seq<Sent>)
    ensures UserBytes(HeardAll(xs)) == DataOf(xs)
    decreases |xs|
  {
    if xs != [] {
      DataHeard(xs[1..]);
      UserAppend(Heard(xs[0]), HeardAll(xs[1..]));
      OneHeard(xs[0]);
    }
  }

  lemma OneHeard(x: Sent)
    ensures UserBytes(Heard(x)) == if x.Data? then x.bytes else []
  {
    match x {
      case Data(b) => UsersBack(b);
      case _ =>
        assert |Heard(x)| == 1 && Heard(x)[1..] == [];
    }
  }

  lemma {:induction false} UsersBack(b: seq<u8>)
    ensures UserBytes(Users(b)) == b
    decreases |b|
  {
    if b != [] {
      assert Users(b)[1..] == Users(b[1..]);
      UsersBack(b[1..]);
    }
  }
}
