/** What a channel keeps in every state of every run. */
module ChannelTheorems {
  import opened Basics
  import opened ChannelEnd
  import opened Direction
  import opened Link

  ghost predicate Reachable(l: Link) {
    exists steps :: IsRun(INIT, steps, l)
  }

  lemma ReachableInv(l: Link)
    requires Reachable(l)
    ensures LinkInv(l)
  {
    var steps :| IsRun(INIT, steps, l);
    InitInv();
    RunKeepsInv(INIT, steps, l);
  }

  /** Sender window + chunk in hand + data in flight + receive buffer + bytes read but not yet
      credited + credit in flight is the initial window while both ends hold the channel; no
      close or teardown ever creates credit. */
  lemma CreditIsConserved(l: Link, side: Side)
    requires Reachable(l)
    ensures var s, r := l.ends.Of(side), l.ends.Of(side.Other());
            var total := s.tx.window + |InHand(s.tx)| + |DataOf(Flight(l, side))| + |r.rx.rb| + Uncredited(r.rx)
                         + CreditOf(Flight(l, side.Other()));
            && total <= DEFAULT_SEND_WINDOW
            && (l.up && (s.life.made ==> s.life.live) && (r.life.made ==> r.life.live) ==> total == DEFAULT_SEND_WINDOW)
  {
    ReachableInv(l);
    assert CreditInv(ToDir(l, side));
  }

  /** What was read is always a prefix of what was sent; while the receiver holds the channel,
      nothing is lost, repeated or reordered on the way. */
  lemma DeliveryIsExact(l: Link, side: Side)
    requires Reachable(l)
    ensures var s, r := l.ends.Of(side), l.ends.Of(side.Other());
            && r.rx.got <= r.rx.got + r.rx.rb <= s.tx.sent
            && (r.life.live ==> r.rx.got + r.rx.rb + DataOf(Flight(l, side)) == s.tx.sent)
  {
    ReachableInv(l);
    assert DeliveryInv(ToDir(l, side));
  }

  /** A Read that returns io.EOF, with the connection up and not being closed and the channel
      not closed locally, has returned all that the peer sent before its first close frame. */
  lemma EofIsComplete(l: Link, side: Side)
    requires Reachable(l)
    requires l.ends.Of(side).rx.reader.RLoop? && l.up && !l.closing.Of(side) && l.ends.Of(side).status != Closed
    requires ReadLoopStep(l.ends.Of(side).rx, false).reader == RReturned([], Eof)
    ensures var finAt := l.ends.Of(side.Other()).tx.finAt;
            && finAt.Some? && finAt.value <= |l.ends.Of(side.Other()).tx.sent|
            && l.ends.Of(side.Other()).tx.sent[..finAt.value] <= l.ends.Of(side).rx.got
  {
    ReachableInv(l);
    var d := ToDir(l, side.Other());
    assert side.Other().Other() == side;
    assert DeliveryInv(d) && FinInv(d);
    var got, sent := l.ends.Of(side).rx.got, l.ends.Of(side.Other()).tx.sent;
    assert TakenIn(l.ends.Of(side)) == got;
    assert got == sent[..|got|];
  }

  /** A parked or parking goroutine has nothing it could go on with, and if the channel was
      closed locally, the broadcast that will wake it is still to come. */
  lemma WakeupsAreNotLost(l: Link, side: Side)
    requires Reachable(l)
    ensures var e := l.ends.Of(side);
            && (e.rx.reader.RParked? || e.rx.reader.RParking? ==>
                  e.rx.rb == [] && e.rx.rerr == NoError && (e.status == Closed ==> e.closer == CWakeReader))
            && (e.tx.writer.WParked? || e.tx.writer.WParking? ==>
                  e.tx.window == 0 && (e.status == Closed ==> e.closer == CWakeReader || e.closer == CWakeWriter))
  {
    ReachableInv(l);
    assert NoLostWakeup(l.ends.Of(side));
  }

  lemma {:induction false} DataBounds(ms: seq<Message>, i: nat)
    requires i < |ms|
    ensures ms[i].Data? ==> |ms[i].bytes| <= |DataOf(ms)|
    ensures ms[i].Credit? ==> ms[i].delta <= CreditOf(ms)
  {
    if i > 0 {
      DataBounds(ms[1..], i - 1);
    }
  }

  /** Frames that are not NewChannel stay within every width and limit of the code. */
  predicate Fits(m: Message) {
    match m
    case New(t) => |t| <= MAX_TARGET
    case Data(b) => |b| <= DEFAULT_SEND_WINDOW && PayloadLength(m) <= MAX_FRAME_PAYLOAD
    case Fin => true
    case Credit(n) => n <= DEFAULT_SEND_WINDOW && n < UINT32
  }

  /** The receive buffer never exceeds one window, so pushData never overflows; the window
      neither underflows nor exceeds its start; the credit of a Read survives its conversion to
      uint32; and every ChannelData and WindowUpdate frame fits. */
  lemma NothingOverflows(l: Link, side: Side)
    requires Reachable(l)
    ensures var e := l.ends.Of(side);
            && |e.rx.rb| <= DEFAULT_SEND_WINDOW && 0 <= e.tx.window <= DEFAULT_SEND_WINDOW
            && e.rx.rerr != Overflow
            && Uncredited(e.rx) % UINT32 == Uncredited(e.rx)
            && |InHand(e.tx)| <= DEFAULT_SEND_WINDOW
    ensures CanStep(l, Deliver(side)) && l.hands.Of(side).value.Data? ==>
              |l.ends.Of(side.Other()).rx.rb| + |l.hands.Of(side).value.bytes| <= MAX_RECEIVE_BUFFER
    ensures forall i :: 0 <= i < |Flight(l, side)| && !Flight(l, side)[i].New? ==> Fits(Flight(l, side)[i])
  {
    hide LinkInv, Reachable, CanStep, Flight, CreditInv, FinInv, DataOf, CreditOf, Fits, InHand, Uncredited;
    ReachableInv(l);
    DirsOf(l, side);
    DeliverTakesHand(l, side);
    var out, back := ToDir(l, side), ToDir(l, side.Other());
    CreditBounds(out);
    CreditBounds(back);
    NoOverflow(back);
    FlightFits(Flight(l, side));
    if l.hands.Of(side).Some? {
      HandInFlight(l, side);
      DataBounds(Flight(l, side), 0);
    }
  }

  lemma DirsOf(l: Link, side: Side)
    requires LinkInv(l)
    ensures CreditInv(ToDir(l, side)) && CreditInv(ToDir(l, side.Other())) && FinInv(ToDir(l, side.Other()))
    ensures side.Other().Other() == side
  {
  }

  lemma HandInFlight(l: Link, side: Side)
    requires l.hands.Of(side).Some?
    ensures Flight(l, side) != [] && Flight(l, side)[0] == l.hands.Of(side).value
  {
  }

  lemma DeliverTakesHand(l: Link, side: Side)
    ensures CanStep(l, Deliver(side)) ==> l.hands.Of(side).Some?
  {
  }

  lemma NoOverflow(d: Dir)
    requires FinInv(d)
    ensures d.r.rx.rerr != Overflow
  {
  }

  /** No part of the sum is more than the whole. */
  lemma CreditBounds(d: Dir)
    requires CreditInv(d)
    ensures 0 <= d.s.tx.window <= DEFAULT_SEND_WINDOW && |InHand(d.s.tx)| <= DEFAULT_SEND_WINDOW
    ensures |d.r.rx.rb| + |DataOf(d.fwd)| <= DEFAULT_SEND_WINDOW
    ensures Uncredited(d.r.rx) <= DEFAULT_SEND_WINDOW && CreditOf(d.back) <= DEFAULT_SEND_WINDOW
  {
    hide DataOf, CreditOf;
  }

  lemma FlightFits(ms: seq<Message>)
    requires |DataOf(ms)| <= DEFAULT_SEND_WINDOW && CreditOf(ms) <= DEFAULT_SEND_WINDOW
    ensures forall i :: 0 <= i < |ms| && !ms[i].New? ==> Fits(ms[i])
  {
    hide DataOf, CreditOf;
    forall i | 0 <= i < |ms| && !ms[i].New? ensures Fits(ms[i]) {
      DataBounds(ms, i);
    }
  }

  /** Once both ends have gone through Close, neither channel map holds the id any more. */
  lemma ClosedIsGone(l: Link)
    requires Reachable(l)
    requires forall side :: l.ends.Of(side).closer in {CSendFin, CDone}
    ensures !l.ends.server.life.live && !l.ends.client.life.live
  {
    ReachableInv(l);
    assert l.ends.Of(Server).closer in {CSendFin, CDone} && l.ends.Of(Client).closer in {CSendFin, CDone};
  }

  /** ... and no later step of any kind brings it back. */
  lemma {:induction false} GoneStaysGone(l: Link, steps: seq<LinkStep>, l': Link, side: Side)
    requires LinkInv(l) && IsRun(l, steps, l')
    requires l.ends.Of(side).life.made && !l.ends.Of(side).life.live
    ensures l'.ends.Of(side).life.made && !l'.ends.Of(side).life.live
    decreases |steps|
  {
    if steps != [] {
      GoneAfterStep(l, steps[0], side);
      StepKeepsInv(l, steps[0]);
      GoneStaysGone(Next(l, steps[0]), steps[1..], l', side);
    }
  }

  lemma GoneAfterStep(l: Link, step: LinkStep, side: Side)
    requires LinkInv(l) && CanStep(l, step)
    requires l.ends.Of(side).life.made && !l.ends.Of(side).life.live
    ensures Next(l, step).ends.Of(side).life.made && !Next(l, step).ends.Of(side).life.live
  {
    hide DirInv, ShapeInv, EndInv;
    if step.Lookup? && l.wires.Of(step.sender)[0].New? {
      NewIsFirst(l, step.sender);
    }
  }

  /** A parked writer at an end that is no longer in its map is woken by exactly two steps: the
      second broadcast of a local Close, and a WindowUpdate frame that the read loop had looked up
      before the end left the map. */
  lemma DroppedWriterWakes(l: Link, step: LinkStep, side: Side)
    requires LinkInv(l) && CanStep(l, step)
    requires var e := l.ends.Of(side); e.life.made && !e.life.live && e.tx.writer.WParked?
    ensures var hand := l.hands.Of(side.Other());
            Next(l, step).ends.Of(side).tx.writer != l.ends.Of(side).tx.writer <==>
              || step == At(side, OnCtl(WakeWriter))
              || (step == Deliver(side.Other()) && hand.Some? && hand.value.Credit?)
  {
    hide LinkInv;
    if step.Lookup? && l.wires.Of(step.sender)[0].New? {
      NewIsFirst(l, step.sender);
    }
  }

  /** A writer parked at an end that its connection's teardown has dropped from the map, with no
      credit in the hands of the read loop. */
  ghost predicate Stranded(l: Link, side: Side) {
    var e, hand := l.ends.Of(side), l.hands.Of(side.Other());
    && e.life.made && !e.life.live && e.tx.writer.WParked? && e.closer == CNone
    && (hand.Some? ==> !hand.value.Credit?)
  }

  lemma StrandedAfterStep(l: Link, step: LinkStep, side: Side)
    requires LinkInv(l) && CanStep(l, step) && Stranded(l, side) && step != At(side, OnCtl(Close))
    ensures Stranded(Next(l, step), side) && Next(l, step).ends.Of(side).tx == l.ends.Of(side).tx
  {
    hide LinkInv;
    if step.Lookup? && l.wires.Of(step.sender)[0].New? {
      NewIsFirst(l, step.sender);
    }
  }

  /** closeAll and CloseWrite do not wake a blocked Write: from then on nothing but a local Close
      does. */
  lemma {:induction false} StrandedWriterStays(l: Link, steps: seq<LinkStep>, l': Link, side: Side)
    requires LinkInv(l) && IsRun(l, steps, l') && Stranded(l, side)
    requires forall i :: 0 <= i < |steps| ==> steps[i] != At(side, OnCtl(Close))
    ensures l'.ends.Of(side).tx == l.ends.Of(side).tx
    decreases |steps|
  {
    hide LinkInv, Stranded, Next, CanStep;
    if steps != [] {
      StrandedAfterStep(l, steps[0], side);
      StepKeepsInv(l, steps[0]);
      StrandedWriterStays(Next(l, steps[0]), steps[1..], l', side);
    }
  }

  lemma {:induction false} RunConcat(a: Link, xs: seq<LinkStep>, b: Link, ys: seq<LinkStep>, c: Link)
    requires IsRun(a, xs, b) && IsRun(b, ys, c)
    ensures IsRun(a, xs + ys, c)
    decreases |xs|
  {
    hide CanStep, Next;
    if xs == [] {
      assert xs + ys == ys;
    } else {
      assert (xs + ys)[1..] == xs[1..] + ys;
      RunConcat(Next(a, xs[0]), xs[1..], b, ys, c);
    }
  }

  lemma OneMore(a: Link, xs: seq<LinkStep>, b: Link, step: LinkStep)
    requires IsRun(a, xs, b) && CanStep(b, step)
    ensures IsRun(a, xs + [step], Next(b, step))
  {
    hide CanStep, Next;
    assert IsRun(Next(b, step), [step][1..], Next(b, step));
    RunConcat(a, xs, b, [step], Next(b, step));
  }

  /** An open server channel that has filled the peer's window and waits for credit. */
  lemma FullWindow(target: seq<byte>, b: seq<byte>) returns (steps: seq<LinkStep>, l: Link)
    requires |target| <= MAX_TARGET && |b| > DEFAULT_SEND_WINDOW
    ensures IsRun(INIT, steps, l) && l.up && l.hands == Pair(None, None) && ReadLockFree(l.ends.server.rx)
    ensures var e := l.ends.server; e.life.made && e.life.live && e.tx.writer.WParked? && e.closer == CNone
  {
    var open, send := Make(target), At(Server, OnCtl(SendNew));
    var l1 := Next(INIT, open);
    var l2 := Next(l1, send);
    var e2 := End(Life(true, true, true, None), Open, CNone, UNMADE.rx, UNMADE.tx);
    assert l2.ends.server == e2 && l2.up && l2.hands == INIT.hands;
    assert IsRun(INIT, [], INIT);
    OneMore(INIT, [], INIT, open);
    OneMore(INIT, [] + [open], l1, send);
    steps, l := FillWindow(l2, [] + [open] + [send], b);
  }

  lemma FillWindow(l2: Link, before: seq<LinkStep>, b: seq<byte>) returns (steps: seq<LinkStep>, l: Link)
    requires IsRun(INIT, before, l2) && l2.up && l2.hands == Pair(None, None) && |b| > DEFAULT_SEND_WINDOW
    requires l2.ends.server == End(Life(true, true, true, None), Open, CNone, UNMADE.rx, UNMADE.tx)
    ensures IsRun(INIT, steps, l) && l.up && l.hands == Pair(None, None) && ReadLockFree(l.ends.server.rx)
    ensures var e := l.ends.server; e.life.made && e.life.live && e.tx.writer.WParked? && e.closer == CNone
  {
    var l3 := Next(l2, At(Server, OnTx(Write(b))));
    var l4 := Next(l3, At(Server, OnTx(WriteLoop)));
    assert l4.ends.server.tx.window == 0 && l4.ends.server.tx.writer.WSending?;
    var l5 := Next(l4, At(Server, OnTx(WriteSend)));
    assert l5.ends.server.tx.writer.WLoop? && l5.ends.server.tx.writer.rest != [];
    var l6 := Next(l5, At(Server, OnTx(WriteLoop)));
    l := Next(l6, At(Server, OnTx(WritePark)));
    hide IsRun;
    OneMore(INIT, before, l2, At(Server, OnTx(Write(b))));
    var s3 := before + [At(Server, OnTx(Write(b)))];
    OneMore(INIT, s3, l3, At(Server, OnTx(WriteLoop)));
    var s4 := s3 + [At(Server, OnTx(WriteLoop))];
    OneMore(INIT, s4, l4, At(Server, OnTx(WriteSend)));
    var s5 := s4 + [At(Server, OnTx(WriteSend))];
    OneMore(INIT, s5, l5, At(Server, OnTx(WriteLoop)));
    var s6 := s5 + [At(Server, OnTx(WriteLoop))];
    OneMore(INIT, s6, l6, At(Server, OnTx(WritePark)));
    steps := s6 + [At(Server, OnTx(WritePark))];
  }

  /** It happens: a Write of more than one window, and then the teardown of its connection. */
  lemma StrandedWriterHappens(target: seq<byte>, b: seq<byte>) returns (l: Link)
    requires |target| <= MAX_TARGET && |b| > DEFAULT_SEND_WINDOW
    ensures Reachable(l) && Stranded(l, Server)
  {
    var steps, l1 := FullWindow(target, b);
    var l2 := Next(l1, BeginClose(Server));
    l := Next(l2, At(Server, OnCtl(Teardown)));
    OneMore(INIT, steps, l1, BeginClose(Server));
    OneMore(INIT, steps + [BeginClose(Server)], l2, At(Server, OnCtl(Teardown)));
  }

  /** A reader that holds `rmu` gives it up by its next step. */
  lemma ReaderLetsGo(l: Link, side: Side) returns (steps: seq<LinkStep>, l': Link)
    requires l.ends.Of(side).closer == CWakeReader
    ensures IsRun(l, steps, l') && ReadLockFree(l'.ends.Of(side).rx)
    ensures l'.ends.Of(side).tx == l.ends.Of(side).tx && l'.ends.Of(side).closer == CWakeReader
    ensures l'.ends.Of(side).status == l.ends.Of(side).status
  {
    var r := l.ends.Of(side).rx.reader;
    if ReadLockFree(l.ends.Of(side).rx) {
      steps, l' := [], l;
    } else {
      var step := At(side, OnRx(if r.RParking? then ReadPark else ReadCredit));
      l' := Next(l, step);
      steps := [step];
      assert IsRun(l', steps[1..], l');
    }
  }

  /** A local Close frees it: after its broadcasts the blocked Write returns with an error. */
  lemma CloseFreesWriter(l: Link, side: Side) returns (steps: seq<LinkStep>, l': Link)
    requires LinkInv(l) && l.ends.Of(side).tx.writer.WParked? && l.ends.Of(side).status == Open
    ensures steps != [] && steps[0] == At(side, OnCtl(Close)) && IsRun(l, steps, l')
    ensures l'.ends.Of(side).tx.writer == WReturned(l.ends.Of(side).tx.writer.total, false)
  {
    hide DirInv, ShapeInv;
    var e := l.ends.Of(side);
    assert EndInv(e);
    var close := At(side, OnCtl(Close));
    var a := Next(l, close);
    var letGo, b := ReaderLetsGo(a, side);
    var rest;
    rest, l' := WakeBoth(b, side);
    RunConcat(a, letGo, b, rest, l');
    steps := [close] + (letGo + rest);
    assert steps[1..] == letGo + rest;
  }

  lemma WakeBoth(b: Link, side: Side) returns (steps: seq<LinkStep>, l': Link)
    requires var e := b.ends.Of(side);
             && e.closer == CWakeReader && ReadLockFree(e.rx) && e.status == Closed
             && e.tx.writer.WParked? && e.tx.writer.rest != [] && e.tx.window <= 0
    ensures IsRun(b, steps, l')
    ensures l'.ends.Of(side).tx.writer == WReturned(b.ends.Of(side).tx.writer.total, false)
  {
    var c := Next(b, At(side, OnCtl(WakeReader)));
    var d := Next(c, At(side, OnCtl(WakeWriter)));
    l' := Next(d, At(side, OnTx(WriteLoop)));
    steps := [At(side, OnCtl(WakeReader)), At(side, OnCtl(WakeWriter)), At(side, OnTx(WriteLoop))];
    assert IsRun(d, [steps[2]], l');
    assert IsRun(c, [steps[1], steps[2]], l') by { assert [steps[1], steps[2]][1..] == [steps[2]]; }
    assert steps[1..] == [steps[1], steps[2]];
  }
}
