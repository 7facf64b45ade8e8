/** Option negotiation by the Q method (section 7 of RFC 1143), as TelnetDevice of tools/rp6502.py
    does it: one endpoint's reactions, and what any two endpoints come to. */
module TelnetNegotiation {
  import opened Common
  import opened TelnetStream

  /** We never initiate a disable, so there is no waiting for a no. */
  datatype Q = No | Yes | WantYes

  /** One option's state: our side, and the peer's as we have it. */
  datatype Side = Side(us: Q, him: Q)

  /** What hearing an offer does to a state, and the answer, if one is due. */
  datatype Reaction = Reaction(state: Q, answers: bool, agrees: bool)

  function OnOffer(q: Q, want: bool): Reaction {
    match q
    case No => if want then Reaction(Yes, true, true) else Reaction(No, true, false)
    case _ => Reaction(Yes, false, false)
  }

  function OnRefusal(q: Q): Reaction {
    match q
    case Yes => Reaction(No, true, false)
    case _ => Reaction(No, false, false)
  }

  function Hears(q: Q, offer: bool, want: bool): Reaction { if offer then OnOffer(q, want) else OnRefusal(q) }

  // ---------------- one option between two endpoints ----------------

  /** One side of an option: the endpoint that performs it, the other's view of it, and what is on the
      way: WILL (true) and WONT one way, DO (true) and DONT the other. */
  datatype Pair = Pair(us: Q, him: Q, will: seq<bool>, doo: seq<bool>)

  /** Every state a pair can be in. */
  predicate PairOk(p: Pair) {
    || p == Pair(No, No, [], []) || p == Pair(Yes, Yes, [], [])
    || p == Pair(No, WantYes, [], [true]) || p == Pair(No, WantYes, [false], [])
    || p == Pair(WantYes, No, [], [false]) || p == Pair(WantYes, No, [true], [])
    || p == Pair(WantYes, Yes, [], [true]) || p == Pair(Yes, WantYes, [true], [])
    || p == Pair(WantYes, WantYes, [], [false, true]) || p == Pair(WantYes, WantYes, [true], [true])
    || p == Pair(WantYes, WantYes, [false, true], [])
  }

  /** The most deliveries it takes to settle. */
  function Unsettled(p: Pair): nat {
    |p.will| + |p.doo| +
    (if p == Pair(No, WantYes, [], [true]) || p == Pair(WantYes, No, [true], []) ||
        p == Pair(WantYes, WantYes, [], [false, true]) || p == Pair(WantYes, WantYes, [false, true], []) then 1 else 0)
  }

  function OfferUs(p: Pair): Pair { if p.us == No then p.(us := WantYes, will := p.will + [true]) else p }

  function OfferHim(p: Pair): Pair { if p.him == No then p.(him := WantYes, doo := p.doo + [true]) else p }

  /** The performer hears the oldest DO or DONT. */
  function HearUs(p: Pair, want: bool): Pair
    requires p.doo != []
  {
    var r := Hears(p.us, p.doo[0], want);
    Pair(r.state, p.him, if r.answers then p.will + [r.agrees] else p.will, p.doo[1..])
  }

  /** The other hears the oldest WILL or WONT. */
  function HearHim(p: Pair, want: bool): Pair
    requires p.will != []
  {
    var r := Hears(p.him, p.will[0], want);
    Pair(p.us, r.state, p.will[1..], if r.answers then p.doo + [r.agrees] else p.doo)
  }

  /** Offers and deliveries in any order keep a pair among its states, and a delivery settles it. */
  lemma PairSteps(p: Pair, want: bool)
    requires PairOk(p)
    ensures PairOk(OfferUs(p)) && PairOk(OfferHim(p))
    ensures p.doo != [] ==> PairOk(HearUs(p, want)) && Unsettled(HearUs(p, want)) < Unsettled(p)
    ensures p.will != [] ==> PairOk(HearHim(p, want)) && Unsettled(HearHim(p, want)) < Unsettled(p)
  {
  }

  /** With nothing on the way neither waits, and one performs exactly what the other has him perform. */
  lemma PairQuiet(p: Pair)
    requires PairOk(p) && p.will == [] && p.doo == []
    ensures p.us != WantYes && p.him != WantYes && (p.us == Yes <==> p.him == Yes)
  {
  }

  // ---------------- two endpoints ----------------

  datatype Msg = Msg(cmd: u8, opt: u8)

  type Opts = map<u8, Side>

  function SideOf(o: Opts, opt: u8): Side { if opt in o then o[opt] else Side(No, No) }

  /** Which of our sides a command speaks to, and how: DO and DONT to us, WILL and WONT to him. */
  predicate ToUs(cmd: u8) { cmd == DO || cmd == DONT }

  predicate Offers(cmd: u8) { cmd == DO || cmd == WILL }

  function Answer(cmd: u8, agrees: bool): (c: u8)
    ensures Negotiates(c)
  {
    if ToUs(cmd) then (if agrees then WILL else WONT) else (if agrees then DO else DONT)
  }

  /** One endpoint hears a command: its options after it, and its answer. */
  function Recv(o: Opts, m: Msg, want: bool): (r: (Opts, seq<Msg>))
    requires Negotiates(m.cmd)
  {
    var s := SideOf(o, m.opt);
    var x := Hears(if ToUs(m.cmd) then s.us else s.him, Offers(m.cmd), want);
    (o[m.opt := if ToUs(m.cmd) then s.(us := x.state) else s.(him := x.state)],
     if x.answers then [Msg(Answer(m.cmd, x.agrees), m.opt)] else [])
  }

  /** An endpoint offers to perform an option (WILL), or asks the peer to (DO), unless it has already. */
  function Offer(o: Opts, opt: u8, us: bool): (r: (Opts, seq<Msg>)) {
    var s := SideOf(o, opt);
    if us then (if s.us == No then (o[opt := s.(us := WantYes)], [Msg(WILL, opt)]) else (o, []))
    else (if s.him == No then (o[opt := s.(him := WantYes)], [Msg(DO, opt)]) else (o, []))
  }

  /** Two endpoints and what is on the way from each to the other. */
  datatype Net = Net(a: Opts, b: Opts, ab: seq<Msg>, ba: seq<Msg>)

  function Swapped(n: Net): Net { Net(n.b, n.a, n.ba, n.ab) }

  /** The messages of opt that speak to us, or to him: whether each is an offer. */
  function On(ms: seq<Msg>, opt: u8, us: bool): seq<bool> {
    if ms == [] then []
    else (if ms[0].opt == opt && ToUs(ms[0].cmd) == us then [Offers(ms[0].cmd)] else []) + On(ms[1..], opt, us)
  }

  /** The option as a performs it. */
  function PairOf(n: Net, opt: u8): Pair {
    Pair(SideOf(n.a, opt).us, SideOf(n.b, opt).him, On(n.ab, opt, false), On(n.ba, opt, true))
  }

  predicate AllNegotiate(ms: seq<Msg>) { forall i :: 0 <= i < |ms| ==> Negotiates(ms[i].cmd) }

  ghost predicate NetOk(n: Net) {
    && AllNegotiate(n.ab) && AllNegotiate(n.ba)
    && (forall opt: u8 :: PairOk(PairOf(n, opt))) && (forall opt: u8 :: PairOk(PairOf(Swapped(n), opt)))
  }

  function OfferA(n: Net, opt: u8, us: bool): Net {
    var r := Offer(n.a, opt, us);
    n.(a := r.0, ab := n.ab + r.1)
  }

  /** b hears a's oldest message; want is its policy. */
  function DeliverB(n: Net, want: u8 -> bool): Net
    requires n.ab != [] && AllNegotiate(n.ab)
  {
    var r := Recv(n.b, n.ab[0], want(n.ab[0].opt));
    Net(n.a, r.0, n.ab[1..], n.ba + r.1)
  }

  lemma {:induction false} OnAppend(ms: seq<Msg>, more: seq<Msg>, opt: u8, us: bool)
    ensures On(ms + more, opt, us) == On(ms, opt, us) + On(more, opt, us)
  {
    if ms == [] {
      assert ms + more == more;
    } else {
      assert (ms + more)[1..] == ms[1..] + more && (ms + more)[0] == ms[0];
      OnAppend(ms[1..], more, opt, us);
      var h := if ms[0].opt == opt && ToUs(ms[0].cmd) == us then [Offers(ms[0].cmd)] else [];
      OnHead(ms + more, h, ms[1..] + more, opt, us);
      OnHead(ms, h, ms[1..], opt, us);
      hide On;
      assert h + (On(ms[1..], opt, us) + On(more, opt, us)) == (h + On(ms[1..], opt, us)) + On(more, opt, us);
    }
  }

  lemma OnHead(ms: seq<Msg>, h: seq<bool>, rest: seq<Msg>, opt: u8, us: bool)
    requires ms != [] && ms[1..] == rest
    requires h == if ms[0].opt == opt && ToUs(ms[0].cmd) == us then [Offers(ms[0].cmd)] else []
    ensures On(ms, opt, us) == h + On(rest, opt, us)
  {
  }

  lemma OnOne(m: Msg, opt: u8, us: bool)
    ensures On([m], opt, us) == if m.opt == opt && ToUs(m.cmd) == us then [Offers(m.cmd)] else []
  {
  }

  /** An offer of a's is one step of one pair and no step of the others. */
  lemma OfferPairs(n: Net, o: u8, us: bool, opt: u8)
    ensures PairOf(OfferA(n, o, us), opt) == if opt == o && us then OfferUs(PairOf(n, opt)) else PairOf(n, opt)
    ensures PairOf(Swapped(OfferA(n, o, us)), opt) ==
            if opt == o && !us then OfferHim(PairOf(Swapped(n), opt)) else PairOf(Swapped(n), opt)
  {
    OfferSides(n.a, o, us, opt, n.ab);
    hide Offer, On;
  }

  lemma OfferSides(a: Opts, o: u8, us: bool, opt: u8, ms: seq<Msg>)
    ensures var r := Offer(a, o, us);
      var mine := opt == o && (if us then SideOf(a, o).us else SideOf(a, o).him) == No;
      && SideOf(r.0, opt) == (if !mine then SideOf(a, opt)
                              else if us then SideOf(a, opt).(us := WantYes) else SideOf(a, opt).(him := WantYes))
      && On(ms + r.1, opt, true) == On(ms, opt, true) + (if mine && !us then [true] else [])
      && On(ms + r.1, opt, false) == On(ms, opt, false) + (if mine && us then [true] else [])
  {
    var r := Offer(a, o, us);
    OnAppend(ms, r.1, opt, false);
    OnAppend(ms, r.1, opt, true);
    if r.1 != [] {
      assert r.1 == [r.1[0]];
      OnOne(r.1[0], opt, false);
      OnOne(r.1[0], opt, true);
      hide On;
    } else {
      assert On(r.1, opt, true) == [] && On(r.1, opt, false) == [];
      hide On;
    }
  }

  /** What hearing m changes of any option, and what its answer adds to what is on the way. */
  lemma RecvSides(o: Opts, m: Msg, want: bool, opt: u8, ms: seq<Msg>)
    requires Negotiates(m.cmd)
    ensures var r := Recv(o, m, want);
      var x := Hears(if ToUs(m.cmd) then SideOf(o, m.opt).us else SideOf(o, m.opt).him, Offers(m.cmd), want);
      var mine := opt == m.opt;
      && SideOf(r.0, opt).us == (if mine && ToUs(m.cmd) then x.state else SideOf(o, opt).us)
      && SideOf(r.0, opt).him == (if mine && !ToUs(m.cmd) then x.state else SideOf(o, opt).him)
      && On(ms + r.1, opt, true) == On(ms, opt, true) + (if mine && !ToUs(m.cmd) && x.answers then [x.agrees] else [])
      && On(ms + r.1, opt, false) == On(ms, opt, false) + (if mine && ToUs(m.cmd) && x.answers then [x.agrees] else [])
  {
    var r := Recv(o, m, want);
    OnAppend(ms, r.1, opt, false);
    OnAppend(ms, r.1, opt, true);
    hide Hears;
    if r.1 != [] {
      OnOne(r.1[0], opt, false);
      OnOne(r.1[0], opt, true);
    }
  }

  /** The oldest message taken off what is on the way. */
  lemma OnTail(ms: seq<Msg>, opt: u8, us: bool)
    requires ms != []
    ensures var mine := ms[0].opt == opt && ToUs(ms[0].cmd) == us;
      && (mine ==>
            && On(ms, opt, us) != [] && On(ms, opt, us)[0] == Offers(ms[0].cmd)
            && On(ms, opt, us)[1..] == On(ms[1..], opt, us))
      && (!mine ==> On(ms, opt, us) == On(ms[1..], opt, us))
  {
    var rest := On(ms[1..], opt, us);
    OnHead(ms, if ms[0].opt == opt && ToUs(ms[0].cmd) == us then [Offers(ms[0].cmd)] else [], ms[1..], opt, us);
    hide On;
    assert [] + rest == rest && ([Offers(ms[0].cmd)] + rest)[1..] == rest;
  }

  /** A delivery is one step of one pair and no step of the others. */
  lemma DeliverPairs(n: Net, want: u8 -> bool, opt: u8)
    requires n.ab != [] && AllNegotiate(n.ab)
    ensures var m := n.ab[0];
      && (m.opt == opt && !ToUs(m.cmd) ==> PairOf(n, opt).will != [])
      && PairOf(DeliverB(n, want), opt) ==
           (if m.opt == opt && !ToUs(m.cmd) then HearHim(PairOf(n, opt), want(opt)) else PairOf(n, opt))
  {
    RecvSides(n.b, n.ab[0], want(n.ab[0].opt), opt, n.ba);
    OnTail(n.ab, opt, false);
    hide Hears, Recv, On, ToUs, Offers, SideOf;
    Same(On(n.ba, opt, true));
  }

  lemma DeliverSwapped(n: Net, want: u8 -> bool, opt: u8)
    requires n.ab != [] && AllNegotiate(n.ab)
    ensures var m := n.ab[0];
      && (m.opt == opt && ToUs(m.cmd) ==> PairOf(Swapped(n), opt).doo != [])
      && PairOf(Swapped(DeliverB(n, want)), opt) ==
           (if m.opt == opt && ToUs(m.cmd) then HearUs(PairOf(Swapped(n), opt), want(opt)) else PairOf(Swapped(n), opt))
  {
    RecvSides(n.b, n.ab[0], want(n.ab[0].opt), opt, n.ba);
    OnTail(n.ab, opt, true);
    hide Hears, Recv, On, ToUs, Offers, SideOf;
    Same(On(n.ba, opt, false));
  }

  lemma Same(x: seq<bool>)
    ensures x + [] == x
  {
  }

  // ---------------- what two endpoints come to ----------------

  lemma SwappedOk(n: Net)
    requires NetOk(n)
    ensures NetOk(Swapped(n))
  {
    hide PairOk, PairOf;
    assert Swapped(Swapped(n)) == n;
  }

  /** Offers at any time keep every option among its states. */
  lemma OfferKeeps(n: Net, o: u8, us: bool)
    requires NetOk(n)
    ensures NetOk(OfferA(n, o, us))
  {
    hide PairOk, PairOf, OfferUs, OfferHim;
    forall opt: u8
      ensures PairOk(PairOf(OfferA(n, o, us), opt)) && PairOk(PairOf(Swapped(OfferA(n, o, us)), opt))
    {
      OfferPairs(n, o, us, opt);
      PairSteps(PairOf(n, opt), true);
      PairSteps(PairOf(Swapped(n), opt), true);
    }
  }

  /** What every option below k still takes to settle, both sides of it. */
  function Left(n: Net, k: nat): nat
    requires k <= 256
  {
    if k == 0 then 0 else Left(n, k - 1) + Unsettled(PairOf(n, k - 1)) + Unsettled(PairOf(Swapped(n), k - 1))
  }

  /** Deliveries keep every option among its states, whatever either endpoint accepts. */
  lemma DeliverKeeps(n: Net, want: u8 -> bool)
    requires NetOk(n) && n.ab != []
    ensures NetOk(DeliverB(n, want))
  {
    hide PairOk, PairOf, HearUs, HearHim;
    AnswersNegotiate(n, want);
    forall opt: u8
      ensures PairOk(PairOf(DeliverB(n, want), opt)) && PairOk(PairOf(Swapped(DeliverB(n, want)), opt))
    {
      DeliverPairs(n, want, opt);
      DeliverSwapped(n, want, opt);
      PairSteps(PairOf(n, opt), want(opt));
      PairSteps(PairOf(Swapped(n), opt), want(opt));
    }
  }

  lemma AnswersNegotiate(n: Net, want: u8 -> bool)
    requires n.ab != [] && AllNegotiate(n.ab) && AllNegotiate(n.ba)
    ensures AllNegotiate(DeliverB(n, want).ab) && AllNegotiate(DeliverB(n, want).ba)
  {
    hide Hears;
  }

  /** And each settles something, and unsettles nothing. */
  lemma {:induction false} DeliverSettles(n: Net, want: u8 -> bool, k: nat)
    requires NetOk(n) && n.ab != [] && k <= 256
    ensures Left(DeliverB(n, want), k) <= Left(n, k) - if n.ab[0].opt < k then 1 else 0
    decreases k
  {
    if k > 0 {
      DeliverSettles(n, want, k - 1);
      hide PairOk, PairOf, HearUs, HearHim, Unsettled, DeliverB, Swapped;
      DeliverPairs(n, want, k - 1);
      DeliverSwapped(n, want, k - 1);
      PairSteps(PairOf(n, k - 1), want(k - 1));
      PairSteps(PairOf(Swapped(n), k - 1), want(k - 1));
    }
  }

  lemma {:induction false} SwappedLeft(n: Net, k: nat)
    requires k <= 256
    ensures Left(Swapped(n), k) == Left(n, k)
    decreases k
  {
    hide Unsettled, PairOf;
    assert Swapped(Swapped(n)) == n;
    if k > 0 {
      SwappedLeft(n, k - 1);
    }
  }

  /** One delivery: to b, or to a. */
  function Deliver(n: Net, toB: bool, wantA: u8 -> bool, wantB: u8 -> bool): Net
    requires AllNegotiate(n.ab) && AllNegotiate(n.ba) && (if toB then n.ab else n.ba) != []
  {
    if toB then DeliverB(n, wantB) else Swapped(DeliverB(Swapped(n), wantA))
  }

  lemma DeliverOne(n: Net, toB: bool, wantA: u8 -> bool, wantB: u8 -> bool)
    requires NetOk(n) && (if toB then n.ab else n.ba) != []
    ensures NetOk(Deliver(n, toB, wantA, wantB))
    ensures Left(Deliver(n, toB, wantA, wantB), 256) < Left(n, 256)
  {
    hide PairOk, PairOf, Recv, Left;
    if toB {
      DeliverKeeps(n, wantB);
      DeliverSettles(n, wantB, 256);
    } else {
      SwappedOk(n);
      DeliverKeeps(Swapped(n), wantA);
      DeliverSettles(Swapped(n), wantA, 256);
      SwappedOk(DeliverB(Swapped(n), wantA));
      SwappedLeft(n, 256);
      SwappedLeft(DeliverB(Swapped(n), wantA), 256);
    }
  }

  /** Whether ds is a run of deliveries, each of a message there is. */
  ghost predicate Deliverable(n: Net, ds: seq<bool>, wantA: u8 -> bool, wantB: u8 -> bool)
    requires NetOk(n)
    decreases |ds|
  {
    ds == [] ||
    ((if ds[0] then n.ab else n.ba) != [] &&
     (DeliverOne(n, ds[0], wantA, wantB);
      Deliverable(Deliver(n, ds[0], wantA, wantB), ds[1..], wantA, wantB)))
  }

  /** Once offers stop, no run of deliveries goes on for longer than what was left to settle. */
  lemma {:induction false} Settles(n: Net, ds: seq<bool>, wantA: u8 -> bool, wantB: u8 -> bool)
    requires NetOk(n) && Deliverable(n, ds, wantA, wantB)
    ensures |ds| <= Left(n, 256)
    decreases |ds|
  {
    hide PairOk, PairOf, Left, Recv;
    if ds != [] {
      DeliverOne(n, ds[0], wantA, wantB);
      Settles(Deliver(n, ds[0], wantA, wantB), ds[1..], wantA, wantB);
    }
  }

  /** With nothing on the way neither end waits, and one's side of every option is enabled exactly when
      the other has it so. */
  lemma Agreed(n: Net, opt: u8)
    requires NetOk(n) && n.ab == [] && n.ba == []
    ensures var a, b := SideOf(n.a, opt), SideOf(n.b, opt);
      && a.us != WantYes && a.him != WantYes && b.us != WantYes && b.him != WantYes
      && (a.us == Yes <==> b.him == Yes) && (b.us == Yes <==> a.him == Yes)
  {
    PairQuiet(PairOf(n, opt));
    PairQuiet(PairOf(Swapped(n), opt));
  }

  // ---------------- whole runs ----------------

  /** What may happen: either end offers an option for a side of its own, or a message arrives. */
  datatype Act = OfferByA(opt: u8, us: bool) | OfferByB(opt: u8, us: bool) | Arrival(toB: bool)

  const START: Net := Net(map[], map[], [], [])

  lemma StartOk()
    ensures NetOk(START)
  {
  }

  /** Whether act may happen now. */
  predicate Possible(n: Net, act: Act) { act.Arrival? ==> (if act.toB then n.ab else n.ba) != [] }

  function Happen(n: Net, act: Act, wantA: u8 -> bool, wantB: u8 -> bool): Net
    requires AllNegotiate(n.ab) && AllNegotiate(n.ba) && Possible(n, act)
  {
    match act
    case OfferByA(opt, us) => OfferA(n, opt, us)
    case OfferByB(opt, us) => Swapped(OfferA(Swapped(n), opt, us))
    case Arrival(toB) => Deliver(n, toB, wantA, wantB)
  }

  lemma HappenKeeps(n: Net, act: Act, wantA: u8 -> bool, wantB: u8 -> bool)
    requires NetOk(n) && Possible(n, act)
    ensures NetOk(Happen(n, act, wantA, wantB))
  {
    hide PairOk, PairOf;
    match act
    case OfferByA(opt, us) => OfferKeeps(n, opt, us);
    case OfferByB(opt, us) =>
      SwappedOk(n);
      OfferKeeps(Swapped(n), opt, us);
      SwappedOk(OfferA(Swapped(n), opt, us));
    case Arrival(toB) => DeliverOne(n, toB, wantA, wantB);
  }

  /** Whether acts may happen one after the other, and end at m. */
  ghost predicate Leads(n: Net, acts: seq<Act>, m: Net, wantA: u8 -> bool, wantB: u8 -> bool)
    requires NetOk(n)
    decreases |acts|
  {
    if acts == [] then m == n
    else
      Possible(n, acts[0]) &&
      (HappenKeeps(n, acts[0], wantA, wantB);
       Leads(Happen(n, acts[0], wantA, wantB), acts[1..], m, wantA, wantB))
  }

  lemma {:induction false} LeadsKeeps(n: Net, acts: seq<Act>, m: Net, wantA: u8 -> bool, wantB: u8 -> bool)
    requires NetOk(n) && Leads(n, acts, m, wantA, wantB)
    ensures NetOk(m)
    decreases |acts|
  {
    hide PairOk, PairOf, Happen;
    if acts != [] {
      HappenKeeps(n, acts[0], wantA, wantB);
      LeadsKeeps(Happen(n, acts[0], wantA, wantB), acts[1..], m, wantA, wantB);
    }
  }

  ghost predicate FromStart(acts: seq<Act>, m: Net, wantA: u8 -> bool, wantB: u8 -> bool) {
    StartOk();
    Leads(START, acts, m, wantA, wantB)
  }

  /** From two fresh endpoints, after any offers and arrivals in any order and whatever each accepts: with
      nothing on the way they agree on every option, and until then no run of arrivals alone is longer
      than what is left to settle. */
  lemma RunAgrees(acts: seq<Act>, m: Net, ds: seq<bool>, opt: u8, wantA: u8 -> bool, wantB: u8 -> bool)
    requires FromStart(acts, m, wantA, wantB)
    ensures NetOk(m)
    ensures Deliverable(m, ds, wantA, wantB) ==> |ds| <= Left(m, 256)
    ensures m.ab == [] && m.ba == [] ==>
      var a, b := SideOf(m.a, opt), SideOf(m.b, opt);
      && a.us != WantYes && a.him != WantYes && b.us != WantYes && b.him != WantYes
      && (a.us == Yes <==> b.him == Yes) && (b.us == Yes <==> a.him == Yes)
  {
    hide Left, SideOf, NetOk, Leads, Deliverable;
    StartOk();
    LeadsKeeps(START, acts, m, wantA, wantB);
    if Deliverable(m, ds, wantA, wantB) {
      Settles(m, ds, wantA, wantB);
    }
    if m.ab == [] && m.ba == [] {
      Agreed(m, opt);
    }
  }

  // ---------------- what they agree on ----------------

  const REST: Pair := Pair(No, No, [], [])
  const AGREED: Pair := Pair(Yes, Yes, [], [])

  /** The performer has offered and the other accepts: enabled, or on the way to it. */
  predicate Accepted(p: Pair) {
    || p == AGREED || p == Pair(WantYes, No, [true], []) || p == Pair(WantYes, Yes, [], [true])
    || p == Pair(WantYes, WantYes, [true], [true]) || p == Pair(Yes, WantYes, [true], [])
    || p == Pair(WantYes, WantYes, [false, true], [])
  }

  /** The other has asked and the performer agrees. */
  predicate Granted(p: Pair) {
    || p == AGREED || p == Pair(No, WantYes, [], [true]) || p == Pair(Yes, WantYes, [true], [])
    || p == Pair(WantYes, WantYes, [true], [true]) || p == Pair(WantYes, Yes, [], [true])
    || p == Pair(WantYes, WantYes, [], [false, true])
  }

  /** A pair after a run: whether its performer has offered and the other has asked, and whether each accepts. */
  predicate Came(p: Pair, offered: bool, asked: bool, performs: bool, accepts: bool) {
    && PairOk(p)
    && (offered && accepts ==> Accepted(p)) && (asked && performs ==> Granted(p))
    && (!offered ==> p.us != WantYes) && (!asked ==> p.him != WantYes)
    && (!offered && !asked ==> p == REST)
    && (offered && !asked && !accepts ==> p in {REST, Pair(WantYes, No, [true], []), Pair(WantYes, No, [], [false])})
    && (asked && !offered && !performs ==> p in {REST, Pair(No, WantYes, [], [true]), Pair(No, WantYes, [false], [])})
  }

  /** Each step of a pair keeps what it has come to. */
  lemma CameOn(p: Pair, offered: bool, asked: bool, performs: bool, accepts: bool)
    requires Came(p, offered, asked, performs, accepts)
    ensures Came(OfferUs(p), true, asked, performs, accepts) && Came(OfferHim(p), offered, true, performs, accepts)
    ensures p.doo != [] ==> Came(HearUs(p, performs), offered, asked, performs, accepts)
    ensures p.will != [] ==> Came(HearHim(p, accepts), offered, asked, performs, accepts)
  {
    hide *;
    OffersOn(p, offered, asked, performs, accepts);
    if p.doo != [] {
      HeardOn(p, offered, asked, performs, accepts);
    }
    if p.will != [] {
      AnsweredOn(p, offered, asked, performs, accepts);
    }
  }

  lemma OffersOn(p: Pair, offered: bool, asked: bool, performs: bool, accepts: bool)
    requires Came(p, offered, asked, performs, accepts)
    ensures Came(OfferUs(p), true, asked, performs, accepts) && Came(OfferHim(p), offered, true, performs, accepts)
  {
  }

  lemma HeardOn(p: Pair, offered: bool, asked: bool, performs: bool, accepts: bool)
    requires Came(p, offered, asked, performs, accepts) && p.doo != []
    ensures Came(HearUs(p, performs), offered, asked, performs, accepts)
  {
  }

  lemma AnsweredOn(p: Pair, offered: bool, asked: bool, performs: bool, accepts: bool)
    requires Came(p, offered, asked, performs, accepts) && p.will != []
    ensures Came(HearHim(p, accepts), offered, asked, performs, accepts)
  {
  }

  /** With nothing on the way, an option is enabled exactly when its performer has offered it and the other
      accepts, or the other has asked for it and the performer accepts; unless both have, and both refuse. */
  lemma CameQuiet(p: Pair, offered: bool, asked: bool, performs: bool, accepts: bool)
    requires Came(p, offered, asked, performs, accepts) && p.will == [] && p.doo == []
    requires !(offered && asked) || performs || accepts
    ensures p.us == Yes <==> (offered && accepts) || (asked && performs)
    ensures p == AGREED || p == REST
  {
  }

  /** What an act makes of the option as a performs it. */
  lemma HappenPair(n: Net, act: Act, opt: u8, wantA: u8 -> bool, wantB: u8 -> bool)
    requires AllNegotiate(n.ab) && AllNegotiate(n.ba) && Possible(n, act)
    ensures var p, q := PairOf(n, opt), PairOf(Happen(n, act, wantA, wantB), opt);
      || (act != OfferByA(opt, true) && act != OfferByB(opt, false) && q == p)
      || (act == OfferByA(opt, true) && q == OfferUs(p)) || (act == OfferByB(opt, false) && q == OfferHim(p))
      || (act.Arrival? && p.doo != [] && q == HearUs(p, wantA(opt)))
      || (act.Arrival? && p.will != [] && q == HearHim(p, wantB(opt)))
  {
    hide PairOf, HearUs, HearHim, OfferUs, OfferHim, OfferA, DeliverB, ToUs;
    assert Swapped(Swapped(n)) == n;
    match act
    case OfferByA(o, us) => OfferPairs(n, o, us, opt);
    case OfferByB(o, us) =>
      OfferPairs(Swapped(n), o, us, opt);
    case Arrival(toB) =>
      if toB {
        DeliverPairs(n, wantB, opt);
      } else {
        DeliverSwapped(Swapped(n), wantA, opt);
      }
  }

  /** And as b performs it. */
  lemma HappenOther(n: Net, act: Act, opt: u8, wantA: u8 -> bool, wantB: u8 -> bool)
    requires AllNegotiate(n.ab) && AllNegotiate(n.ba) && Possible(n, act)
    ensures var p, q := PairOf(Swapped(n), opt), PairOf(Swapped(Happen(n, act, wantA, wantB)), opt);
      || (act != OfferByB(opt, true) && act != OfferByA(opt, false) && q == p)
      || (act == OfferByB(opt, true) && q == OfferUs(p)) || (act == OfferByA(opt, false) && q == OfferHim(p))
      || (act.Arrival? && p.doo != [] && q == HearUs(p, wantB(opt)))
      || (act.Arrival? && p.will != [] && q == HearHim(p, wantA(opt)))
  {
    hide PairOf, HearUs, HearHim, OfferUs, OfferHim, OfferA, DeliverB, ToUs;
    assert Swapped(Swapped(n)) == n;
    match act
    case OfferByA(o, us) => OfferPairs(n, o, us, opt);
    case OfferByB(o, us) =>
      OfferPairs(Swapped(n), o, us, opt);
      assert Swapped(Swapped(OfferA(Swapped(n), o, us))) == OfferA(Swapped(n), o, us);
    case Arrival(toB) =>
      if toB {
        DeliverSwapped(n, wantB, opt);
      } else {
        DeliverPairs(Swapped(n), wantA, opt);
        assert Swapped(Swapped(DeliverB(Swapped(n), wantA))) == DeliverB(Swapped(n), wantA);
      }
  }

  /** What the option has come to on either side, after acts on top of what had been offered before. */
  lemma {:induction false} LeadsCame(n: Net, acts: seq<Act>, m: Net, opt: u8, wantA: u8 -> bool, wantB: u8 -> bool,
        willA: bool, doB: bool, willB: bool, doA: bool)
    requires NetOk(n) && Leads(n, acts, m, wantA, wantB)
    requires Came(PairOf(n, opt), willA, doB, wantA(opt), wantB(opt))
    requires Came(PairOf(Swapped(n), opt), willB, doA, wantB(opt), wantA(opt))
    ensures Came(PairOf(m, opt), willA || OfferByA(opt, true) in acts, doB || OfferByB(opt, false) in acts,
                 wantA(opt), wantB(opt))
    ensures Came(PairOf(Swapped(m), opt), willB || OfferByB(opt, true) in acts, doA || OfferByA(opt, false) in acts,
                 wantB(opt), wantA(opt))
    decreases |acts|
  {
    hide PairOk, PairOf, Happen, Came, HearUs, HearHim, OfferUs, OfferHim, Swapped;
    if acts != [] {
      var h := Happen(n, acts[0], wantA, wantB);
      HappenKeeps(n, acts[0], wantA, wantB);
      HappenPair(n, acts[0], opt, wantA, wantB);
      HappenOther(n, acts[0], opt, wantA, wantB);
      CameOn(PairOf(n, opt), willA, doB, wantA(opt), wantB(opt));
      CameOn(PairOf(Swapped(n), opt), willB, doA, wantB(opt), wantA(opt));
      LeadsCame(h, acts[1..], m, opt, wantA, wantB,
                willA || acts[0] == OfferByA(opt, true), doB || acts[0] == OfferByB(opt, false),
                willB || acts[0] == OfferByB(opt, true), doA || acts[0] == OfferByA(opt, false));
      InHead(acts, OfferByA(opt, true));
      InHead(acts, OfferByB(opt, false));
      InHead(acts, OfferByB(opt, true));
      InHead(acts, OfferByA(opt, false));
    }
  }

  lemma InHead(acts: seq<Act>, x: Act)
    requires acts != []
    ensures x in acts <==> x == acts[0] || x in acts[1..]
  {
    assert acts == [acts[0]] + acts[1..];
  }

  /** What they agree on. From two fresh endpoints, once nothing is on the way, an option is enabled on a's
      side, at both ends, exactly when a offered it and b accepts it or b asked for it and a accepts it; and
      the same for b's side. The one run this does not decide is an offer and a request that both refuse. */
  lemma RunEnables(acts: seq<Act>, m: Net, opt: u8, wantA: u8 -> bool, wantB: u8 -> bool)
    requires FromStart(acts, m, wantA, wantB) && m.ab == [] && m.ba == []
    ensures var willA, doB := OfferByA(opt, true) in acts, OfferByB(opt, false) in acts;
      !(willA && doB) || wantA(opt) || wantB(opt) ==>
        && (SideOf(m.a, opt).us == Yes <==> (willA && wantB(opt)) || (doB && wantA(opt)))
        && SideOf(m.b, opt).him == SideOf(m.a, opt).us != WantYes
    ensures var willB, doA := OfferByB(opt, true) in acts, OfferByA(opt, false) in acts;
      !(willB && doA) || wantA(opt) || wantB(opt) ==>
        && (SideOf(m.b, opt).us == Yes <==> (willB && wantA(opt)) || (doA && wantB(opt)))
        && SideOf(m.a, opt).him == SideOf(m.b, opt).us != WantYes
  {
    hide NetOk, Leads, Came, SideOf;
    StartOk();
    StartCame(opt, wantA(opt), wantB(opt));
    LeadsCame(START, acts, m, opt, wantA, wantB, false, false, false, false);
    var willA, doB := OfferByA(opt, true) in acts, OfferByB(opt, false) in acts;
    var willB, doA := OfferByB(opt, true) in acts, OfferByA(opt, false) in acts;
    if !(willA && doB) || wantA(opt) || wantB(opt) {
      CameQuiet(PairOf(m, opt), willA, doB, wantA(opt), wantB(opt));
    }
    if !(willB && doA) || wantA(opt) || wantB(opt) {
      CameQuiet(PairOf(Swapped(m), opt), willB, doA, wantB(opt), wantA(opt));
    }
  }

  lemma StartCame(opt: u8, wantA: bool, wantB: bool)
    ensures PairOf(START, opt) == REST && PairOf(Swapped(START), opt) == REST
    ensures Came(REST, false, false, wantA, wantB) && Came(REST, false, false, wantB, wantA)
  {
  }

  /** An offer and a request both refuse: enabled when they cross, and not when one follows the other. */
  lemma CrossingDecides()
    ensures HearHim(HearUs(OfferHim(OfferUs(REST)), false), false) == AGREED
    ensures var q := HearUs(HearHim(OfferUs(REST), false), false); HearHim(HearUs(OfferHim(q), false), false) == REST
  {
  }

  // ---------------- how long they take ----------------

  /** The messages of options below k. */
  function Total(ms: seq<Msg>, k: nat): nat
    requires k <= 256
  {
    if k == 0 then 0 else Total(ms, k - 1) + |On(ms, k - 1, true)| + |On(ms, k - 1, false)|
  }

  lemma {:induction false} TotalHead(ms: seq<Msg>, k: nat)
    requires ms != [] && k <= 256
    ensures Total(ms, k) == Total(ms[1..], k) + if ms[0].opt < k then 1 else 0
    decreases k
  {
    if k > 0 {
      TotalHead(ms, k - 1);
      OnTail(ms, k - 1, true);
      OnTail(ms, k - 1, false);
      hide On, ToUs, Offers;
    }
  }

  lemma {:induction false} TotalNone(k: nat)
    requires k <= 256
    ensures Total([], k) == 0
  {
    if k > 0 {
      TotalNone(k - 1);
    }
  }

  lemma {:induction false} TotalIs(ms: seq<Msg>)
    ensures Total(ms, 256) == |ms|
  {
    if ms == [] {
      TotalNone(256);
    } else {
      TotalIs(ms[1..]);
      TotalHead(ms, 256);
      hide Total;
    }
  }

  lemma {:induction false} LeftWithin(n: Net, k: nat)
    requires NetOk(n) && k <= 256
    ensures Left(n, k) <= 2 * (Total(n.ab, k) + Total(n.ba, k))
    decreases k
  {
    if k > 0 {
      LeftWithin(n, k - 1);
      PairWithin(PairOf(n, k - 1));
      PairWithin(PairOf(Swapped(n), k - 1));
      hide Unsettled, On, PairOk;
    }
  }

  lemma PairWithin(p: Pair)
    requires PairOk(p)
    ensures Unsettled(p) <= 2 * (|p.will| + |p.doo|)
  {
  }

  /** After any run of two fresh endpoints, once offers stop, at most twice as many messages arrive as are on the
      way. */
  lemma RunSettles(acts: seq<Act>, m: Net, ds: seq<bool>, wantA: u8 -> bool, wantB: u8 -> bool)
    requires FromStart(acts, m, wantA, wantB)
    ensures NetOk(m) && (Deliverable(m, ds, wantA, wantB) ==> |ds| <= 2 * (|m.ab| + |m.ba|))
  {
    hide Left, NetOk, Leads, Deliverable, Total;
    RunAgrees(acts, m, ds, 0, wantA, wantB);
    LeftWithin(m, 256);
    TotalIs(m.ab);
    TotalIs(m.ba);
  }
}
