/** A channel on its own: its two ends and the frames between them, as a step system. */
module Link {
  import opened Basics
  import opened ChannelEnd
  import opened Direction

  /** The longest target that OpenChannel can carry: handleNewChannel adds 6 to the length in
      a uint16 (see Messages). */
  const MAX_TARGET := 65529

  /** `hands.Of(s)` is a frame from `s` whose channel the other read loop has looked up and not
      handled yet; `wires.Of(s)` holds the frames from `s` behind it. */
  datatype Link = Link(ends: Pair<End>, hands: Pair<Option<Message>>, wires: Pair<seq<Message>>,
                       closing: Pair<bool>, up: bool)

  const INIT := Link(Pair(UNMADE, UNMADE), Pair(None, None), Pair([], []), Pair(false, false), true)

  datatype LinkStep =
    | Make(target: seq<byte>)             // OpenChannel, first critical section
    | At(side: Side, step: Step)          // a goroutine at one end
    | Lookup(sender: Side)                // the read loop reads a frame and looks up the channel
    | Deliver(sender: Side)               // the handler does its work on the channel
    | Accept                              // AcceptChannel returns the client's channel
    | BeginClose(side: Side)              // closeAll starts at one end
    | Cut                                 // the connection goes down: sends fail from now on

  function Flight(l: Link, s: Side): seq<Message> {
    (if l.hands.Of(s).Some? then [l.hands.Of(s).value] else []) + l.wires.Of(s)
  }

  function ToDir(l: Link, s: Side): Dir {
    Dir(l.ends.Of(s), l.ends.Of(s.Other()), Flight(l, s), l.hands.Of(s).Some?, Flight(l, s.Other()),
        l.up, l.closing.Of(s.Other()))
  }

  predicate CanStep(l: Link, step: LinkStep) {
    match step
    case Make(target) => !l.ends.server.life.made && |target| <= MAX_TARGET
    case At(side, st) => Enabled(l.ends.Of(side), st) && (st == OnCtl(Teardown) ==> l.closing.Of(side))
    case Lookup(s) => l.hands.Of(s).None? && l.wires.Of(s) != []
    case Deliver(s) => l.hands.Of(s).Some? && CanReceive(l.ends.Of(s.Other()), l.hands.Of(s).value)
    case Accept => l.ends.client.life.made && !l.ends.client.life.usable
    case BeginClose(_) => true
    case Cut => true
  }

  /** The frame at the head of a wire meets the channel map of the other end. */
  function LookupStep(l: Link, s: Side): Link
    requires CanStep(l, Lookup(s))
  {
    var m, rest := l.wires.Of(s)[0], l.wires.With(s, l.wires.Of(s)[1..]);
    if m.New? then l.(ends := l.ends.With(s.Other(), NewEnd(None)), wires := rest)
    else if l.ends.Of(s.Other()).life.live then l.(hands := l.hands.With(s, Some(m)), wires := rest)
    else l.(wires := rest)
  }

  /** One end changes and puts `out` on its wire. */
  function AtEnd(l: Link, side: Side, e: End, out: seq<Message>): Link {
    l.(ends := l.ends.With(side, e), wires := l.wires.With(side, l.wires.Of(side) + out))
  }

  function Next(l: Link, step: LinkStep): Link
    requires CanStep(l, step)
  {
    match step
    case Make(target) => l.(ends := l.ends.With(Server, NewEnd(Some(target))))
    case At(side, st) =>
      var o := Local(l.ends.Of(side), st, l.up);
      AtEnd(l, side, o.end, o.out)
    case Lookup(s) => LookupStep(l, s)
    case Deliver(s) =>
      var r := s.Other();
      l.(ends := l.ends.With(r, Receive(l.ends.Of(r), l.hands.Of(s).value)), hands := l.hands.With(s, None))
    case Accept =>
      l.(ends := l.ends.With(Client, l.ends.client.(life := l.ends.client.life.(usable := true))))
    case BeginClose(side) => l.(closing := l.closing.With(side, true))
    case Cut => l.(up := false)
  }

  predicate NoNew(ms: seq<Message>) {
    forall i :: 0 <= i < |ms| ==> !ms[i].New?
  }

  /** The NewChannel frame is the first of its channel, and the client answers only after it. */
  ghost predicate ShapeInv(l: Link) {
    var s, c := l.ends.server.life, l.ends.client.life;
    && NoNew(Flight(l, Client))
    && (l.hands.server.Some? ==> !l.hands.server.value.New?)
    && c.opening.None?
    && (s.opening.Some? ==> |s.opening.value| <= MAX_TARGET)
    && (!s.usable ==> l.wires.server == [] && l.hands.server.None? && !c.made)
    && (!c.made ==> l.hands.server.None? && Flight(l, Client) == []
                    && (l.wires.server != [] ==> l.wires.server[0].New? && |l.wires.server[0].target| <= MAX_TARGET
                                                 && NoNew(l.wires.server[1..])))
    && (!c.made && s.usable ==> l.wires.server != [])
    && (c.made ==> NoNew(l.wires.server))
  }

  ghost predicate LinkInv(l: Link) {
    && EndInv(l.ends.server) && EndInv(l.ends.client)
    && DirInv(ToDir(l, Server)) && DirInv(ToDir(l, Client))
    && ShapeInv(l)
  }

  lemma InitInv()
    ensures LinkInv(INIT)
  {
  }

  lemma InvSized(l: Link, side: Side)
    requires LinkInv(l)
    ensures Sized(l.ends.Of(side))
  {
    assert CreditInv(ToDir(l, side)) && CreditInv(ToDir(l, side.Other()));
  }

  lemma AtKeepsDirs(l: Link, side: Side, e: End, out: seq<Message>)
    requires DirInv(ToDir(l, side)) && DirInv(ToDir(l, side.Other()))
    requires Accounts(l.ends.Of(side), e, out, l.up) && Ages(l.ends.Of(side), e, l.up, l.closing.Of(side))
    ensures DirInv(ToDir(AtEnd(l, side, e, out), side)) && DirInv(ToDir(AtEnd(l, side, e, out), side.Other()))
  {
    hide DirInv, Accounts;
    var l' := AtEnd(l, side, e, out);
    assert Flight(l', side) == Flight(l, side) + out;
    SenderStep(ToDir(l, side), e, out);
    ReceiverStep(ToDir(l, side.Other()), e, out);
    assert ToDir(l', side) == ToDir(l, side).(s := e, fwd := ToDir(l, side).fwd + out);
    assert ToDir(l', side.Other()) == ToDir(l, side.Other()).(r := e, back := ToDir(l, side.Other()).back + out);
  }

  /** Only the first frame of an opening end is a NewChannel, and it makes the end usable. */
  ghost predicate Opens(e: End, e': End, out: seq<Message>) {
    && |out| <= 1
    && e'.life.made == e.life.made
    && (e'.life.opening == e.life.opening || e'.life.opening == None)
    && (e.life.usable ==> e'.life.usable && NoNew(out))
    && (!e.life.usable ==> (e'.life.usable <==> out != []))
    && (!e.life.usable && out != [] ==> e.life.opening.Some? && out[0] == New(e.life.opening.value))
  }

  lemma LocalOpens(e: End, step: Step, up: bool)
    requires EndInv(e) && Enabled(e, step)
    ensures var o := Local(e, step, up); Opens(e, o.end, o.out)
  {
  }

  lemma NoNewConcat(a: seq<Message>, b: seq<Message>)
    ensures NoNew(a + b) <==> NoNew(a) && NoNew(b)
  {
    forall i | 0 <= i < |b| && NoNew(a + b) ensures !b[i].New? {
      assert (a + b)[|a| + i] == b[i];
    }
    forall i | 0 <= i < |a| && NoNew(a + b) ensures !a[i].New? {
      assert (a + b)[i] == a[i];
    }
  }

  lemma ServerKeepsShape(l: Link, e: End, out: seq<Message>)
    requires ShapeInv(l) && Opens(l.ends.server, e, out)
    ensures ShapeInv(AtEnd(l, Server, e, out))
  {
    hide NoNew;
    var w, l' := l.wires.server, AtEnd(l, Server, e, out);
    NoNewConcat(w, out);
    assert Flight(l', Client) == Flight(l, Client);
    if w == [] {
      assert w + out == out;
      NothingIsNew();
      assert |out| == 1 ==> out[1..] == [];
    } else {
      assert (w + out)[0] == w[0] && (w + out)[1..] == w[1..] + out;
      NoNewConcat(w[1..], out);
    }
  }

  lemma NothingIsNew()
    ensures NoNew([])
  {
  }

  lemma ClientKeepsShape(l: Link, e: End, out: seq<Message>)
    requires ShapeInv(l) && LifeInv(l.ends.client) && Opens(l.ends.client, e, out)
    ensures ShapeInv(AtEnd(l, Client, e, out))
  {
    hide NoNew;
    var l' := AtEnd(l, Client, e, out);
    assert Flight(l', Client) == Flight(l, Client) + out;
    NoNewConcat(Flight(l, Client), out);
    NothingIsNew();
    assert l'.wires.server == l.wires.server && l'.hands == l.hands;
  }

  lemma AtKeepsShape(l: Link, side: Side, e: End, out: seq<Message>)
    requires ShapeInv(l) && LifeInv(l.ends.client) && Opens(l.ends.Of(side), e, out)
    ensures ShapeInv(AtEnd(l, side, e, out))
  {
    hide ShapeInv, Opens, AtEnd, LifeInv;
    match side
    case Server => ServerKeepsShape(l, e, out);
    case Client => ClientKeepsShape(l, e, out);
  }

  lemma AtKeepsInv(l: Link, side: Side, st: Step)
    requires LinkInv(l) && CanStep(l, At(side, st))
    ensures LinkInv(Next(l, At(side, st)))
  {
    hide DirInv, ShapeInv, Accounts, Ages, Opens, EndInv, Local, Enabled, Sized;
    var e, o := l.ends.Of(side), Local(l.ends.Of(side), st, l.up);
    InvSized(l, side);
    LocalAccounts(e, st, l.up);
    LocalAges(e, st, l.up, l.closing.Of(side));
    AtKeepsDirs(l, side, o.end, o.out);
    LocalOpens(e, st, l.up);
    EndInvLife(l.ends.client);
    AtKeepsShape(l, side, o.end, o.out);
    LocalKeepsEndInv(e, st, l.up);
  }

  lemma EndInvLife(e: End)
    requires EndInv(e)
    ensures LifeInv(e)
  {
  }

  /** What EndInv says that a wire can see. */
  lemma EndInvLive(e: End)
    requires EndInv(e)
    ensures e.life.live || e.life.usable ==> e.life.made
    ensures !e.life.made ==> e == UNMADE
    ensures !e.life.usable ==> e.tx == UNMADE.tx
  {
  }

  lemma MakeKeepsInv(l: Link, target: seq<byte>)
    requires LinkInv(l) && CanStep(l, Make(target))
    ensures LinkInv(Next(l, Make(target)))
  {
    hide EndInv;
    var l' := Next(l, Make(target));
    EndInvLive(l.ends.server);
    assert ToDir(l', Server) == ToDir(l, Server).(s := l'.ends.server);
    assert ToDir(l', Client) == ToDir(l, Client).(r := l'.ends.server);
    NewEndInv(Some(target));
  }

  lemma NewEndInv(opening: Option<seq<byte>>)
    ensures EndInv(NewEnd(opening))
  {
  }

  lemma CreateKeepsDirs(d: Dir, b: Dir)
    requires DirInv(d) && d.r == UNMADE && d.fwd != [] && d.fwd[0].New? && !d.held
    requires DirInv(b) && b.s == UNMADE && b.back == d.fwd
    ensures DirInv(d.(r := NewEnd(None), fwd := d.fwd[1..]))
    ensures DirInv(b.(s := NewEnd(None), back := b.back[1..]))
  {
  }

  lemma HeadInFlight(l: Link, s: Side)
    requires l.wires.Of(s) != []
    ensures l.wires.Of(s)[0] in Flight(l, s)
  {
    assert Flight(l, s)[|Flight(l, s)| - |l.wires.Of(s)|] == l.wires.Of(s)[0];
  }

  /** A NewChannel frame comes from the server, for a channel its client does not have. */
  lemma NewIsFirst(l: Link, s: Side)
    requires LinkInv(l) && l.wires.Of(s) != [] && l.wires.Of(s)[0].New?
    ensures s == Server && !l.ends.client.life.made && l.hands.server.None?
    ensures NoNew(l.wires.server[1..]) && l.ends.server.life.usable
  {
    hide DirInv, EndInv;
    if s == Client {
      HeadInFlight(l, Client);
    }
  }

  /** handleNewChannel puts a fresh channel in the client's map. */
  lemma CreateKeepsInv(l: Link, s: Side)
    requires LinkInv(l) && CanStep(l, Lookup(s)) && l.wires.Of(s)[0].New?
    ensures LinkInv(LookupStep(l, s))
  {
    hide EndInv, DirInv;
    NewIsFirst(l, s);
    EndInvLive(l.ends.client);
    NewEndInv(None);
    CreateKeepsShape(l);
    CreateSeen(l);
    hide ShapeInv, ToDir, NewEnd;
    CreateKeepsDirs(ToDir(l, Server), ToDir(l, Client));
  }

  lemma CreateKeepsShape(l: Link)
    requires ShapeInv(l) && CanStep(l, Lookup(Server)) && l.wires.server[0].New?
    requires !l.ends.client.life.made && l.hands.server.None? && NoNew(l.wires.server[1..]) && l.ends.server.life.usable
    ensures ShapeInv(LookupStep(l, Server))
  {
  }

  /** How both directions see it. */
  lemma CreateSeen(l: Link)
    requires ShapeInv(l) && CanStep(l, Lookup(Server)) && l.wires.server[0].New?
    requires l.ends.client == UNMADE && l.hands.server.None?
    ensures var d, b, l' := ToDir(l, Server), ToDir(l, Client), LookupStep(l, Server);
            && d.r == UNMADE && d.fwd == l.wires.server && !d.held && b.s == UNMADE && b.back == d.fwd
            && l'.ends == l.ends.With(Client, NewEnd(None))
            && ToDir(l', Server) == d.(r := NewEnd(None), fwd := d.fwd[1..])
            && ToDir(l', Client) == b.(s := NewEnd(None), back := b.back[1..])
  {
    hide ShapeInv, CanStep, NewEnd;
    var l' := LookupStep(l, Server);
    CreateStepIs(l);
    hide LookupStep, Flight;
    NoHand(l);
    NoHand(l');
    SameClientFlight(l, l');
  }

  lemma CreateStepIs(l: Link)
    requires CanStep(l, Lookup(Server)) && l.wires.server[0].New?
    ensures LookupStep(l, Server) ==
              l.(ends := Pair(l.ends.server, NewEnd(None)), wires := Pair(l.wires.server[1..], l.wires.client))
  {
    hide NewEnd;
  }

  lemma NoHand(l: Link)
    ensures l.hands.server.None? ==> Flight(l, Server) == l.wires.server
  {
  }

  lemma SameClientFlight(l: Link, l': Link)
    requires l.hands == l'.hands && l.wires.client == l'.wires.client
    ensures Flight(l, Client) == Flight(l', Client)
  {
  }

  /** Nothing is on the way before the server has made its end. */
  lemma FlightNeedsMade(l: Link, s: Side)
    requires LinkInv(l) && l.wires.Of(s) != []
    ensures l.ends.server.life.made
  {
    hide DirInv, EndInv;
    EndInvLive(l.ends.server);
  }

  /** Any other frame finds its channel made, by the shape of the wire. */
  lemma LookupFindsMade(l: Link, s: Side)
    requires LinkInv(l) && CanStep(l, Lookup(s)) && !l.wires.Of(s)[0].New?
    ensures l.ends.Of(s.Other()).life.made
  {
    hide DirInv;
    var m := l.wires.Of(s)[0];
    assert Flight(l, s) == [m] + l.wires.Of(s)[1..];
  }

  lemma LookupKeepsDirs(l: Link, s: Side)
    requires DirInv(ToDir(l, s)) && DirInv(ToDir(l, s.Other())) && l.ends.Of(s.Other()).life.made
    requires CanStep(l, Lookup(s)) && !l.wires.Of(s)[0].New?
    ensures var l' := LookupStep(l, s); DirInv(ToDir(l', s)) && DirInv(ToDir(l', s.Other()))
  {
    hide DirInv, EndInv;
    var l', d, b := LookupStep(l, s), ToDir(l, s), ToDir(l, s.Other());
    var m := l.wires.Of(s)[0];
    assert d.fwd == [m] + l.wires.Of(s)[1..];
    if d.r.life.live {
      HoldStep(d);
      assert ToDir(l', s) == d.(held := true);
      assert ToDir(l', s.Other()) == b;
    } else {
      DropStep(d);
      DropBackStep(b);
      assert ToDir(l', s) == d.(fwd := d.fwd[1..]);
      assert ToDir(l', s.Other()) == b.(back := b.back[1..]);
    }
  }

  lemma LookupKeepsInv(l: Link, s: Side)
    requires LinkInv(l) && CanStep(l, Lookup(s))
    ensures LinkInv(Next(l, Lookup(s)))
  {
    hide DirInv, EndInv;
    if l.wires.Of(s)[0].New? {
      CreateKeepsInv(l, s);
    } else {
      LookupFindsMade(l, s);
      LookupKeepsDirs(l, s);
      var l' := LookupStep(l, s);
      assert forall i :: 0 <= i < |Flight(l', s)| ==> Flight(l', s)[i] in Flight(l, s);
    }
  }

  /** A frame with credit in it arrives only at a usable end. */
  lemma CreditNeedsUsable(l: Link, s: Side)
    requires LinkInv(l) && l.hands.Of(s).Some?
    ensures l.ends.Of(s.Other()).life.made
    ensures l.hands.Of(s).value.Credit? && l.hands.Of(s).value.delta > 0 ==> l.ends.Of(s.Other()).life.usable
  {
    hide EndInv, DeliveryInv, FinInv;
    EndInvLive(l.ends.Of(s.Other()));
    assert CreditInv(ToDir(l, s.Other()));
  }

  lemma DeliverKeepsDirs(l: Link, s: Side)
    requires LinkInv(l) && CanStep(l, Deliver(s)) && l.ends.Of(s.Other()).life.made
    ensures var l' := Next(l, Deliver(s)); DirInv(ToDir(l', s)) && DirInv(ToDir(l', s.Other()))
  {
    hide DirInv, EndInv, ShapeInv, Receive, CanReceive;
    var l', d, b := Next(l, Deliver(s)), ToDir(l, s), ToDir(l, s.Other());
    DeliverSeen(l, s);
    hide ToDir, Next, LinkInv;
    ReceiveStep(d);
    ReceiveBackStep(b);
  }

  /** How both directions see the handling of a frame. */
  lemma DeliverSeen(l: Link, s: Side)
    requires LinkInv(l) && CanStep(l, Deliver(s))
    ensures var l', d, b := Next(l, Deliver(s)), ToDir(l, s), ToDir(l, s.Other());
            && d.fwd != [] && d.held && CanReceive(d.r, d.fwd[0]) && b.back == d.fwd && b.s == d.r && DirInv(d) && DirInv(b)
            && d.r == l.ends.Of(s.Other())
            && ToDir(l', s) == Handled(d)
            && ToDir(l', s.Other()) == b.(s := Receive(b.s, b.back[0]), back := b.back[1..])
  {
    hide DirInv, EndInv, ShapeInv, Receive, CanReceive;
    assert Flight(l, s) == [l.hands.Of(s).value] + l.wires.Of(s);
    assert Flight(l, s)[1..] == l.wires.Of(s);
    assert s.Other().Other() == s;
  }

  lemma DeliverKeepsInv(l: Link, s: Side)
    requires LinkInv(l) && CanStep(l, Deliver(s))
    ensures LinkInv(Next(l, Deliver(s)))
  {
    hide DirInv, EndInv;
    var m, r := l.hands.Of(s).value, l.ends.Of(s.Other());
    assert Flight(l, s) == [m] + l.wires.Of(s);
    CreditNeedsUsable(l, s);
    DeliverKeepsDirs(l, s);
    ReceiveKeepsEndInv(r, m);
    var l' := Next(l, Deliver(s));
    assert forall i :: 0 <= i < |Flight(l', s)| ==> Flight(l', s)[i] in Flight(l, s);
  }

  lemma AcceptKeepsInv(l: Link)
    requires LinkInv(l) && CanStep(l, Accept)
    ensures LinkInv(Next(l, Accept))
  {
    hide DirInv, Flight;
    var l', s, c := Next(l, Accept), ToDir(l, Server), ToDir(l, Client);
    var e := l'.ends.client;
    SameFlights(l, l');
    IgnoresUsable(s, s.(r := e));
    IgnoresUsable(c, c.(s := e));
    assert ToDir(l', Server) == s.(r := e);
    assert ToDir(l', Client) == c.(s := e);
  }

  lemma SameFlights(l: Link, l': Link)
    requires l.wires == l'.wires && l.hands == l'.hands
    ensures Flight(l, Server) == Flight(l', Server) && Flight(l, Client) == Flight(l', Client)
  {
  }

  lemma IgnoresUsable(d: Dir, d': Dir)
    requires DirInv(d)
    requires d' == d.(r := d.r.(life := d.r.life.(usable := true))) || d' == d.(s := d.s.(life := d.s.life.(usable := true)))
    ensures DirInv(d')
  {
  }

  /** A closing connection, or a dead one, only weakens what a direction promises. */
  lemma FailureKeepsDir(d: Dir, up: bool, closing: bool)
    requires DirInv(d) && (up ==> d.up) && (d.closing ==> closing)
    ensures DirInv(d.(up := up, closing := closing))
  {
  }

  lemma FailureKeepsInv(l: Link, step: LinkStep)
    requires LinkInv(l) && CanStep(l, step) && (step.BeginClose? || step.Cut?)
    ensures LinkInv(Next(l, step))
  {
    hide DirInv, Flight, EndInv;
    var l' := Next(l, step);
    SameFlights(l, l');
    FailureKeepsDir(ToDir(l, Server), l'.up, l'.closing.client);
    FailureKeepsDir(ToDir(l, Client), l'.up, l'.closing.server);
    assert ToDir(l', Server) == ToDir(l, Server).(up := l'.up, closing := l'.closing.client);
    assert ToDir(l', Client) == ToDir(l, Client).(up := l'.up, closing := l'.closing.server);
  }

  lemma StepKeepsInv(l: Link, step: LinkStep)
    requires LinkInv(l) && CanStep(l, step)
    ensures LinkInv(Next(l, step))
  {
    hide LinkInv;
    match step
    case Make(target) => MakeKeepsInv(l, target);
    case At(side, st) => AtKeepsInv(l, side, st);
    case Lookup(s) => LookupKeepsInv(l, s);
    case Deliver(s) => DeliverKeepsInv(l, s);
    case Accept => AcceptKeepsInv(l);
    case _ => FailureKeepsInv(l, step);
  }

  /** `steps` leads from `l` to `l'`. */
  ghost predicate IsRun(l: Link, steps: seq<LinkStep>, l': Link)
    decreases |steps|
  {
    if steps == [] then l == l'
    else CanStep(l, steps[0]) && IsRun(Next(l, steps[0]), steps[1..], l')
  }

  /** Every state of every run satisfies the invariant. */
  lemma {:induction false} RunKeepsInv(l: Link, steps: seq<LinkStep>, l': Link)
    requires LinkInv(l) && IsRun(l, steps, l')
    ensures LinkInv(l')
    decreases |steps|
  {
    hide LinkInv;
    if steps != [] {
      StepKeepsInv(l, steps[0]);
      RunKeepsInv(Next(l, steps[0]), steps[1..], l');
    }
  }
}
