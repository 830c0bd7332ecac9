/** End to end: a public connection and the server's Relay, a channel, and the client's Relay
    and its target (relay/relay.go, relay/remoteserver.go:290-301, relay/remoteclient.go:155-169),
    with no I/O error. Both directions run at once. */
module RelaySystem {
  import opened Basics
  import opened ChannelEnd
  import opened Direction
  import opened Link

  const BUFFER_SIZE := 32 * 1024

  /** `src` is what the outside connection of a side will still send before it half-closes;
      `out` is what Relay has written to it, and `eof` that Relay has half-closed it. */
  datatype Sys = Sys(l: Link, src: Pair<seq<byte>>, out: Pair<seq<byte>>, eof: Pair<bool>)

  datatype SysStep =
    | Inner(step: LinkStep)              // goroutines inside a call, and the read loops
    | Upload(side: Side, n: nat)         // io.CopyBuffer has read n bytes outside and calls Write
    | Uploaded(side: Side)               // Write returned
    | UploadEof(side: Side)              // end of the outside input: closeWrite on the channel
    | Download(side: Side)               // io.CopyBuffer calls Read
    | Downloaded(side: Side)             // Read returned; what it read goes out
    | Finish(side: Side)                 // both copies are done: Close

  predicate Internal(st: Step) {
    match st
    case OnRx(r) => r in {ReadLoop, ReadPark, ReadCredit}
    case OnTx(w) => w in {WriteLoop, WritePark, WriteSend, SendFin}
    case OnCtl(c) => c in {SendNew, WakeReader, WakeWriter, Remove, CloseSend}
  }

  /** The call that Relay makes, or whose return it takes. */
  function CallOf(step: SysStep, src: seq<byte>): Step
    requires !step.Inner? && (step.Upload? ==> step.n <= |src|)
  {
    match step
    case Upload(_, n) => OnTx(Write(src[..n]))
    case Uploaded(_) => OnTx(WriteDone)
    case UploadEof(_) => OnTx(CloseWrite)
    case Download(_) => OnRx(Read(BUFFER_SIZE))
    case Downloaded(_) => OnRx(ReadDone)
    case Finish(_) => OnCtl(Close)
  }

  /** The input left after it; a failed Write makes the copy give up the rest. */
  function SrcAfter(step: SysStep, e: End, src: seq<byte>): seq<byte>
    requires !step.Inner? && (step.Upload? ==> step.n <= |src|)
  {
    match step
    case Upload(_, n) => src[n..]
    case Uploaded(_) => if e.tx.writer.WReturned? && !e.tx.writer.ok then [] else src
    case _ => src
  }

  /** The copy from the channel ends with a Read that returns an error. */
  function EofAfter(step: SysStep, e: End, eof: bool): bool {
    eof || (step.Downloaded? && e.rx.reader.RReturned? && e.rx.reader.err != NoError)
  }

  /** The step of the channel in a step of the system. */
  function Under(sys: Sys, step: SysStep): LinkStep
    requires step.Upload? ==> step.n <= |sys.src.Of(step.side)|
  {
    match step
    case Inner(s) => s
    case _ => At(step.side, CallOf(step, sys.src.Of(step.side)))
  }

  predicate CanSys(sys: Sys, step: SysStep) {
    && (match step
        case Inner(At(_, st)) => Internal(st)
        case Inner(s) => s.Lookup? || s.Deliver? || s.Accept?
        case Upload(side, n) => 0 < n <= Min(BUFFER_SIZE, |sys.src.Of(side)|) && sys.l.ends.Of(side).status == Open
        case UploadEof(side) => sys.src.Of(side) == []
        case Download(side) => !sys.eof.Of(side)
        case Finish(side) =>
          sys.eof.Of(side) && sys.l.ends.Of(side).status == WriteClosed && sys.l.ends.Of(side).tx.writer == WIdle
        case _ => true)
    && CanStep(sys.l, Under(sys, step))
  }

  function SysNext(sys: Sys, step: SysStep): Sys
    requires CanSys(sys, step)
  {
    var next := sys.(l := Next(sys.l, Under(sys, step)));
    if step.Inner? then next
    else
      var side, e := step.side, sys.l.ends.Of(step.side);
      Sys(next.l,
          sys.src.With(side, SrcAfter(step, e, sys.src.Of(side))),
          if step.Downloaded? then sys.out.With(side, sys.out.Of(side) + e.rx.reader.data) else sys.out,
          sys.eof.With(side, EofAfter(step, e, sys.eof.Of(side))))
  }

  /** The server has accepted a public connection and called OpenChannel; `data.server` is what
      the public side sends and `data.client` what the target sends. */
  function Begin(target: seq<byte>, data: Pair<seq<byte>>): Sys
    requires |target| <= MAX_TARGET
  {
    Sys(Next(INIT, Make(target)), data, Pair([], []), Pair(false, false))
  }

  /** Bytes handed to Write and not deducted from the window yet. */
  function Rest(tx: Tx): seq<byte> {
    match tx.writer
    case WLoop(rest, _) => rest
    case WParking(rest, _) => rest
    case WParked(rest, _) => rest
    case WSending(_, rest, _) => rest
    case _ => []
  }

  /** Bytes that Read has taken and Relay has not written yet. */
  function Pending(rx: Rx): seq<byte> {
    match rx.reader
    case RCrediting(data) => data
    case RReturned(data, _) => data
    case _ => []
  }

  /** Sending half: nothing of the input is lost, and the close frame comes after all of it. */
  ghost predicate UpInv(tx: Tx, status: Status, src: seq<byte>, all: seq<byte>) {
    && tx.sent + InHand(tx) + Rest(tx) + src == all
    && (tx.writer.WReturned? ==> tx.writer.ok)
    && (status != Open ==> src == [] && (tx.writer == WFinishing || tx.writer == WIdle))
    && (status != Open && tx.writer == WIdle ==> tx.finAt == Some(|all|))
    && (status == Closed ==> tx.writer == WIdle)
    && (tx.finAt.Some? ==> tx.finAt == Some(|all|) && status != Open)
  }

  /** Receiving half: what came out is what was read, and the end is the end of the input. */
  ghost predicate DownInv(rx: Rx, status: Status, out: seq<byte>, eof: bool, all: seq<byte>) {
    && out + Pending(rx) == rx.got
    && (eof ==> rx.reader == RIdle && rx.got == all)
    && (rx.reader.RReturned? && rx.reader.err != NoError ==> rx.got == all && rx.reader.data == [])
    && (rx.reader.RLoop? || rx.reader.RParking? || rx.reader.RParked? ==> rx.reader.max == BUFFER_SIZE)
    && (status == Closed ==> eof)
  }

  ghost predicate RelayInv(sys: Sys, data: Pair<seq<byte>>) {
    && LinkInv(sys.l) && sys.l.up && !sys.l.closing.server && !sys.l.closing.client
    && Opening(sys.l.ends.server)
    && SideInv(sys, data, Server) && SideInv(sys, data, Client)
  }

  /** OpenChannel has not failed. */
  predicate Opening(e: End) {
    e.life.made && (e.life.usable || e.life.opening.Some?)
  }

  ghost predicate SideInv(sys: Sys, data: Pair<seq<byte>>, side: Side) {
    var e := sys.l.ends.Of(side);
    && UpInv(e.tx, e.status, sys.src.Of(side), data.Of(side))
    && DownInv(e.rx, e.status, sys.out.Of(side), sys.eof.Of(side), data.Of(side.Other()))
    && (sys.eof.Of(side) ==> DataOf(Flight(sys.l, side.Other())) == [])
  }

  /** When the reader has seen the peer's close frame, it has taken in everything. */
  lemma EofMeansAll(sys: Sys, data: Pair<seq<byte>>, side: Side)
    requires RelayInv(sys, data)
    requires sys.l.ends.Of(side).rx.rerr != NoError && sys.l.ends.Of(side).status != Closed
    ensures TakenIn(sys.l.ends.Of(side)) == data.Of(side.Other())
    ensures sys.l.ends.Of(side).life.live ==> DataOf(Flight(sys.l, side.Other())) == []
  {
    hide EndInv, ShapeInv, DirInv, UpInv, DownInv, TakenIn, DataOf;
    var o := side.Other();
    assert o.Other() == side && DirInv(ToDir(sys.l, o));
    assert SideInv(sys, data, o);
    EofTakesAll(ToDir(sys.l, o), sys.src.Of(o), data.Of(o));
  }

  lemma EofTakesAll(d: Dir, src: seq<byte>, all: seq<byte>)
    requires DirInv(d) && UpInv(d.s.tx, d.s.status, src, all) && d.up && !d.closing
    requires d.r.rx.rerr != NoError && d.r.status != Closed
    ensures TakenIn(d.r) == all && (d.r.life.live ==> DataOf(d.fwd) == [])
  {
    hide CreditInv, DataOf;
    var sent := d.s.tx.sent;
    assert |TakenIn(d.r)| >= |all| >= |sent|;
  }

  lemma BeginInv(target: seq<byte>, data: Pair<seq<byte>>)
    requires |target| <= MAX_TARGET
    ensures RelayInv(Begin(target, data), data)
  {
    hide LinkInv;
    InitInv();
    StepKeepsInv(INIT, Make(target));
  }

  lemma InternalKeepsUp(e: End, st: Step, src: seq<byte>, all: seq<byte>)
    requires EndInv(e) && Sized(e) && Enabled(e, st) && Internal(st) && UpInv(e.tx, e.status, src, all)
    ensures var e' := Local(e, st, true).end; UpInv(e'.tx, e'.status, src, all)
  {
  }

  lemma InternalKeepsDown(e: End, st: Step, out: seq<byte>, eof: bool, all: seq<byte>)
    requires EndInv(e) && Enabled(e, st) && Internal(st) && DownInv(e.rx, e.status, out, eof, all)
    requires e.rx.rerr != NoError && e.status != Closed ==> TakenIn(e) == all
    ensures var e' := Local(e, st, true).end; DownInv(e'.rx, e'.status, out, eof, all)
  {
  }

  /** Once everything has come out at the other side, no data frame follows. */
  lemma NothingMoreToSend(sys: Sys, data: Pair<seq<byte>>, side: Side)
    requires RelayInv(sys, data) && sys.eof.Of(side.Other())
    ensures InHand(sys.l.ends.Of(side).tx) == [] && sys.l.ends.Of(side).tx.sent == data.Of(side)
  {
    hide EndInv, ShapeInv, FinInv, CreditInv;
    assert side.Other().Other() == side;
    assert DirInv(ToDir(sys.l, side));
    assert SideInv(sys, data, side) && SideInv(sys, data, side.Other());
    var sent, all := sys.l.ends.Of(side).tx.sent, data.Of(side);
    assert |all| <= |sent|;
  }

  lemma SilentWhenDone(sys: Sys, data: Pair<seq<byte>>, side: Side, st: Step)
    requires RelayInv(sys, data) && CanStep(sys.l, At(side, st)) && sys.eof.Of(side.Other())
    ensures DataOf(Flight(Next(sys.l, At(side, st)), side)) == []
  {
    hide LinkInv, EndInv, UpInv, DownInv, Local, Enabled, DataOf, InHand;
    var o := Local(sys.l.ends.Of(side), st, sys.l.up);
    assert side.Other().Other() == side;
    assert SideInv(sys, data, side.Other());
    EndInvOf(sys.l, side);
    NothingMoreToSend(sys, data, side);
    DataIsInHand(sys.l.ends.Of(side), st);
    assert Flight(Next(sys.l, At(side, st)), side) == Flight(sys.l, side) + o.out;
    hide RelayInv, SideInv, Next, Flight;
    AtMostOneMore(Flight(sys.l, side), o.out);
  }

  /** Steps of the goroutines of one end, inside a call or between calls. */
  lemma EndStepKeepsRelay(sys: Sys, sys': Sys, data: Pair<seq<byte>>, side: Side, st: Step)
    requires RelayInv(sys, data) && CanStep(sys.l, At(side, st)) && st != OnCtl(Teardown)
    requires sys'.l == Next(sys.l, At(side, st))
    requires sys'.src.Of(side.Other()) == sys.src.Of(side.Other()) && sys'.out.Of(side.Other()) == sys.out.Of(side.Other())
             && sys'.eof.Of(side.Other()) == sys.eof.Of(side.Other())
    requires var e' := sys'.l.ends.Of(side);
             && UpInv(e'.tx, e'.status, sys'.src.Of(side), data.Of(side))
             && DownInv(e'.rx, e'.status, sys'.out.Of(side), sys'.eof.Of(side), data.Of(side.Other()))
    requires sys'.eof.Of(side) ==> DataOf(Flight(sys.l, side.Other())) == []
    ensures RelayInv(sys', data)
  {
    hide LinkInv, UpInv, DownInv, EndInv, Local, Enabled;
    StepKeepsInv(sys.l, At(side, st));
    MadeStays(sys.l, side, st);
    assert side.Other().Other() == side;
    assert Flight(sys'.l, side.Other()) == Flight(sys.l, side.Other());
    if sys.eof.Of(side.Other()) {
      SilentWhenDone(sys, data, side, st);
    }
    assert SideInv(sys', data, side);
    assert SideInv(sys', data, side.Other());
  }

  lemma MadeStays(l: Link, side: Side, st: Step)
    requires LinkInv(l) && CanStep(l, At(side, st)) && l.up && st != OnCtl(Teardown)
    ensures Opening(l.ends.Of(side)) ==> Opening(Next(l, At(side, st)).ends.Of(side))
  {
    hide DirInv, ShapeInv;
    InvSized(l, side);
  }

  lemma EndInvOf(l: Link, side: Side)
    requires LinkInv(l)
    ensures EndInv(l.ends.Of(side))
  {
  }

  lemma DataIsInHand(e: End, st: Step)
    requires EndInv(e) && Enabled(e, st)
    ensures |DataOf(Local(e, st, true).out)| <= |InHand(e.tx)| && |Local(e, st, true).out| <= 1
  {
  }

  lemma InternalKeepsRelay(sys: Sys, data: Pair<seq<byte>>, side: Side, st: Step)
    requires RelayInv(sys, data) && CanSys(sys, Inner(At(side, st)))
    ensures RelayInv(SysNext(sys, Inner(At(side, st))), data)
  {
    hide LinkInv, UpInv, DownInv, EndInv, Local, Enabled;
    var e := sys.l.ends.Of(side);
    EndInvOf(sys.l, side);
    InvSized(sys.l, side);
    assert SideInv(sys, data, side);
    if e.rx.rerr != NoError && e.status != Closed {
      EofMeansAll(sys, data, side);
    }
    InternalKeepsUp(e, st, sys.src.Of(side), data.Of(side));
    InternalKeepsDown(e, st, sys.out.Of(side), sys.eof.Of(side), data.Of(side.Other()));
    EndStepKeepsRelay(sys, SysNext(sys, Inner(At(side, st))), data, side, st);
  }

  lemma CallKeepsEnd(e: End, step: SysStep, src: seq<byte>, all: seq<byte>, out: seq<byte>, eof: bool, down: seq<byte>)
    requires EndInv(e) && !step.Inner? && UpInv(e.tx, e.status, src, all) && DownInv(e.rx, e.status, out, eof, down)
    requires step.Upload? ==> 0 < step.n <= |src| && e.status == Open
    requires step.UploadEof? ==> src == []
    requires step.Download? ==> !eof
    requires step.Finish? ==> eof && e.status == WriteClosed && e.tx.writer == WIdle
    requires Enabled(e, CallOf(step, src))
    ensures var e' := Local(e, CallOf(step, src), true).end;
            && UpInv(e'.tx, e'.status, SrcAfter(step, e, src), all)
            && DownInv(e'.rx, e'.status, if step.Downloaded? then out + e.rx.reader.data else out, EofAfter(step, e, eof), down)
  {
    match step
    case Upload(_, n) => assert src == src[..n] + src[n..];
    case _ =>
  }

  /** The steps in which Relay goes from one call to the next. */
  lemma CallKeepsRelay(sys: Sys, data: Pair<seq<byte>>, step: SysStep)
    requires RelayInv(sys, data) && CanSys(sys, step) && !step.Inner?
    ensures RelayInv(SysNext(sys, step), data)
  {
    hide LinkInv, EndInv, UpInv, DownInv, Local, Enabled, CallOf, SrcAfter;
    var side, e := step.side, sys.l.ends.Of(step.side);
    assert SideInv(sys, data, side);
    EndInvOf(sys.l, side);
    CallKeepsEnd(e, step, sys.src.Of(side), data.Of(side), sys.out.Of(side), sys.eof.Of(side), data.Of(side.Other()));
    if EofAfter(step, e, sys.eof.Of(side)) && !sys.eof.Of(side) {
      AllIsRead(sys, data, side);
      ReadAllEmptiesFlight(sys, data, side);
    }
    NotTeardown(step, sys.src.Of(side));
    EndStepKeepsRelay(sys, SysNext(sys, step), data, side, CallOf(step, sys.src.Of(side)));
  }

  lemma NotTeardown(step: SysStep, src: seq<byte>)
    requires !step.Inner? && (step.Upload? ==> step.n <= |src|)
    ensures CallOf(step, src) != OnCtl(Teardown)
  {
  }

  lemma AllIsRead(sys: Sys, data: Pair<seq<byte>>, side: Side)
    requires RelayInv(sys, data) && sys.l.ends.Of(side).rx.reader.RReturned? && sys.l.ends.Of(side).rx.reader.err != NoError
    ensures sys.l.ends.Of(side).rx.got == data.Of(side.Other()) && sys.l.ends.Of(side).status != Closed
  {
    hide LinkInv;
    assert SideInv(sys, data, side);
  }

  /** An end that has read everything has nothing coming, as long as it is open. */
  lemma ReadAllEmptiesFlight(sys: Sys, data: Pair<seq<byte>>, side: Side)
    requires RelayInv(sys, data) && sys.l.ends.Of(side).rx.got == data.Of(side.Other()) && sys.l.ends.Of(side).status != Closed
    ensures DataOf(Flight(sys.l, side.Other())) == [] && sys.l.ends.Of(side).rx.rb == []
  {
    hide EndInv, ShapeInv, CreditInv;
    var d := ToDir(sys.l, side.Other());
    assert side.Other().Other() == side;
    assert DirInv(d);
    assert SideInv(sys, data, side.Other());
    assert |d.s.tx.sent| <= |data.Of(side.Other())|;
  }

  lemma ReceiveKeepsHalves(e: End, m: Message, src: seq<byte>, all: seq<byte>, out: seq<byte>, eof: bool, down: seq<byte>)
    requires CanReceive(e, m) && UpInv(e.tx, e.status, src, all) && DownInv(e.rx, e.status, out, eof, down)
    ensures var e' := Receive(e, m); UpInv(e'.tx, e'.status, src, all) && DownInv(e'.rx, e'.status, out, eof, down)
  {
  }

  lemma DeliverKeepsRelay(sys: Sys, data: Pair<seq<byte>>, s: Side)
    requires RelayInv(sys, data) && CanSys(sys, Inner(Deliver(s)))
    ensures RelayInv(SysNext(sys, Inner(Deliver(s))), data)
  {
    hide LinkInv, EndInv, UpInv, DownInv, CanReceive, Enabled, Local, Internal;
    var m, r, sys' := sys.l.hands.Of(s).value, s.Other(), SysNext(sys, Inner(Deliver(s)));
    StepKeepsInv(sys.l, Deliver(s));
    assert r.Other() == s;
    assert Flight(sys.l, s) == [m] + Flight(sys'.l, s);
    assert Flight(sys'.l, s) == Flight(sys.l, s)[1..];
    assert Flight(sys'.l, r) == Flight(sys.l, r);
    assert SideInv(sys, data, s) && SideInv(sys, data, r);
    ReceiveKeepsHalves(sys.l.ends.Of(r), m, sys.src.Of(r), data.Of(r), sys.out.Of(r), sys.eof.Of(r), data.Of(s));
    assert SideInv(sys', data, s);
    assert SideInv(sys', data, r);
  }

  lemma LookupKeepsRelay(sys: Sys, data: Pair<seq<byte>>, s: Side)
    requires RelayInv(sys, data) && CanSys(sys, Inner(Lookup(s)))
    ensures RelayInv(SysNext(sys, Inner(Lookup(s))), data)
  {
    hide LinkInv, EndInv;
    var m, r, sys' := sys.l.wires.Of(s)[0], s.Other(), SysNext(sys, Inner(Lookup(s)));
    StepKeepsInv(sys.l, Lookup(s));
    assert r.Other() == s;
    assert Flight(sys.l, s) == [m] + sys'.l.wires.Of(s);
    assert Flight(sys.l, s)[1..] == sys'.l.wires.Of(s);
    assert Flight(sys'.l, s) == Flight(sys.l, s) || Flight(sys'.l, s) == Flight(sys.l, s)[1..];
    assert Flight(sys'.l, r) == Flight(sys.l, r);
    assert SideInv(sys, data, s) && SideInv(sys, data, r);
    if m.New? {
      NewIsFirst(sys.l, s);
      EndInvOf(sys.l, r);
      EndInvLive(sys.l.ends.client);
    }
    assert SideInv(sys', data, s);
    assert SideInv(sys', data, r);
  }

  lemma AcceptKeepsRelay(sys: Sys, data: Pair<seq<byte>>)
    requires RelayInv(sys, data) && CanSys(sys, Inner(Accept))
    ensures RelayInv(SysNext(sys, Inner(Accept)), data)
  {
    hide LinkInv;
    StepKeepsInv(sys.l, Accept);
    SameFlights(sys.l, SysNext(sys, Inner(Accept)).l);
    assert SideInv(sys, data, Server) && SideInv(sys, data, Client);
  }

  lemma StepKeepsRelay(sys: Sys, data: Pair<seq<byte>>, step: SysStep)
    requires RelayInv(sys, data) && CanSys(sys, step)
    ensures RelayInv(SysNext(sys, step), data)
  {
    hide RelayInv, SysNext, CanStep;
    match step
    case Inner(At(side, st)) => InternalKeepsRelay(sys, data, side, st);
    case Inner(Lookup(s)) => LookupKeepsRelay(sys, data, s);
    case Inner(Deliver(s)) => DeliverKeepsRelay(sys, data, s);
    case Inner(_) => AcceptKeepsRelay(sys, data);
    case _ => CallKeepsRelay(sys, data, step);
  }

  ghost predicate IsSysRun(sys: Sys, steps: seq<SysStep>, sys': Sys)
    decreases |steps|
  {
    if steps == [] then sys == sys'
    else CanSys(sys, steps[0]) && IsSysRun(SysNext(sys, steps[0]), steps[1..], sys')
  }

  lemma {:induction false} RunKeepsRelay(sys: Sys, data: Pair<seq<byte>>, steps: seq<SysStep>, sys': Sys)
    requires RelayInv(sys, data) && IsSysRun(sys, steps, sys')
    ensures RelayInv(sys', data)
    decreases |steps|
  {
    hide RelayInv, CanSys, SysNext;
    if steps != [] {
      StepKeepsRelay(sys, data, steps[0]);
      RunKeepsRelay(SysNext(sys, steps[0]), data, steps[1..], sys');
    }
  }

  // Termination: every byte and every program counter has a price, and each step lowers the sum.

  function MessageCost(m: Message): nat {
    if m.Data? then 8 * |m.bytes| + 3 else 3
  }

  function FlightCost(ms: seq<Message>): nat {
    if ms == [] then 0 else MessageCost(ms[0]) + FlightCost(ms[1..])
  }

  function WriterCost(w: Writer, status: Status): nat {
    match w
    case WIdle => if status == Open then 6 else 0
    case WLoop(rest, _) => 16 * |rest| + 10
    case WParking(rest, _) => 16 * |rest| + 9
    case WParked(rest, _) => 16 * |rest| + 8
    case WSending(chunk, rest, _) => 16 * |chunk| + 16 * |rest| + 9
    case WReturned(_, _) => 7
    case WFinishing => 5
  }

  function ReaderCost(r: Reader, eof: bool): nat {
    match r
    case RIdle => if eof then 0 else 4
    case RLoop(_) => 3
    case RParking(_) => 2
    case RParked(_) => 1
    case RCrediting(_) => 10
    case RReturned(_, err) => if err == NoError then 5 else 2
  }

  function CloserCost(c: Closer): nat {
    match c
    case CNone => 20
    case CWakeReader => 16
    case CWakeWriter => 12
    case CRemove => 9
    case CSendFin => 8
    case CDone => 0
  }

  function EndCost(e: End, eof: bool): nat {
    (if e.life.usable then 0 else 8) + WriterCost(e.tx.writer, e.status) + ReaderCost(e.rx.reader, eof)
    + 8 * |e.rx.rb| + CloserCost(e.closer)
  }

  function Cost(sys: Sys): nat {
    EndCost(sys.l.ends.server, sys.eof.server) + EndCost(sys.l.ends.client, sys.eof.client)
    + 21 * |sys.src.server| + 21 * |sys.src.client| + WireCost(sys.l)
  }

  function WireCost(l: Link): nat {
    FlightCost(Flight(l, Server)) + FlightCost(Flight(l, Client)) + |l.wires.server| + |l.wires.client|
  }

  lemma {:induction false} FlightCostAppend(ms: seq<Message>, m: Message)
    ensures FlightCost(ms + [m]) == FlightCost(ms) + MessageCost(m)
  {
    if ms == [] {
      assert ms + [m] == [m];
    } else {
      assert (ms + [m])[1..] == ms[1..] + [m];
      FlightCostAppend(ms[1..], m);
    }
  }

  /** The price of what a step puts on the wire. */
  function OutCost(out: seq<Message>): nat {
    FlightCost(out) + |out|
  }

  lemma SendLowers(tx: Tx, status: Status)
    requires TxInv(tx, status) && tx.writer.WSending? && |tx.writer.chunk| <= DEFAULT_SEND_WINDOW
    ensures WriterCost(WriteSendStep(tx, true).writer, status) + OutCost(Sent(true, Data(tx.writer.chunk)))
              < WriterCost(tx.writer, status)
  {
    SingleCost(Data(tx.writer.chunk));
    hide OutCost;
    assert |tx.writer.chunk| > 0;
  }

  lemma LoopLowers(tx: Tx, status: Status)
    requires TxInv(tx, status) && tx.writer.WLoop?
    ensures WriterCost(WriteLoopStep(tx, status).writer, status) < WriterCost(tx.writer, status)
  {
  }

  lemma WriterLowers(tx: Tx, status: Status, w: WriterStep)
    requires TxInv(tx, status) && WriterEnabled(tx, true, status, w) && Internal(OnTx(w))
    requires |InHand(tx)| <= DEFAULT_SEND_WINDOW
    requires status == Closed ==> tx.writer == WIdle
    ensures var tx', out := WriterNext(tx, status, w, true), WriterOut(tx, status, w, true);
            WriterCost(tx'.writer, status) + OutCost(out) < WriterCost(tx.writer, status)
  {
    assert OutCost([]) == 0;
    match w
    case WriteLoop =>
      hide WriteLoopStep, WriterCost;
      LoopLowers(tx, status);
    case WriteSend =>
      hide WriteSendStep, WriterCost, OutCost;
      SendLowers(tx, status);
    case SendFin =>
      SingleCost(Fin);
      hide OutCost;
    case WritePark =>
  }

  lemma SingleCost(m: Message)
    ensures OutCost([m]) == MessageCost(m) + 1
  {
    FlightCostAppend([], m);
    assert [] + [m] == [m];
  }

  lemma ReaderLowers(e: End, r: ReaderStep, eof: bool)
    requires RxInv(e.rx) && ReaderEnabled(e.rx, e.life.usable, r) && Internal(OnRx(r))
    requires e.rx.reader.RLoop? ==> e.rx.reader.max > 0
    requires Uncredited(e.rx) <= DEFAULT_SEND_WINDOW
    ensures var o := Local(e, OnRx(r), true); EndCost(o.end, eof) + OutCost(o.out) < EndCost(e, eof)
  {
    hide WriterCost, CloserCost;
    if r == ReadCredit {
      SingleCost(Credit(|e.rx.reader.data| % UINT32));
      hide OutCost;
    }
  }

  lemma ControlLowers(e: End, c: ControlStep, eof: bool)
    requires Sized(e) && LifeInv(e) && ControlEnabled(e, c) && Internal(OnCtl(c))
    ensures var o := Local(e, OnCtl(c), true); EndCost(o.end, eof) + OutCost(o.out) < EndCost(e, eof)
  {
    SingleCost(Fin);
    if c == SendNew {
      SingleCost(New(e.life.opening.value));
    }
  }

  lemma InternalLowers(e: End, st: Step, eof: bool)
    requires EndInv(e) && Sized(e) && Enabled(e, st) && Internal(st)
    requires e.rx.reader.RLoop? ==> e.rx.reader.max > 0
    requires e.status == Closed ==> e.tx.writer == WIdle
    ensures var o := Local(e, st, true); EndCost(o.end, eof) + OutCost(o.out) < EndCost(e, eof)
  {
    hide NoLostWakeup, LifeInv, OutCost;
    match st
    case OnTx(w) =>
      hide WriterCost, WriterNext, WriterOut, ReaderCost, CloserCost;
      WriterLowers(e.tx, e.status, w);
    case OnRx(r) =>
      hide Local, EndCost;
      ReaderLowers(e, r, eof);
    case OnCtl(c) =>
      hide Local, EndCost;
      ControlLowers(e, c, eof);
  }

  lemma SendCosts(l: Link, side: Side, e: End, out: seq<Message>)
    requires |out| <= 1
    ensures WireCost(AtEnd(l, side, e, out)) == WireCost(l) + OutCost(out)
  {
    var l' := AtEnd(l, side, e, out);
    assert Flight(l', side) == Flight(l, side) + out;
    assert Flight(l', side.Other()) == Flight(l, side.Other());
    if out == [] {
      assert Flight(l, side) + out == Flight(l, side);
    } else {
      FlightCostAppend(Flight(l, side), out[0]);
      assert out == [out[0]];
      assert FlightCost(out) == MessageCost(out[0]);
    }
  }

  lemma InternalFalls(sys: Sys, data: Pair<seq<byte>>, side: Side, st: Step)
    requires RelayInv(sys, data) && CanSys(sys, Inner(At(side, st)))
    ensures Cost(SysNext(sys, Inner(At(side, st)))) < Cost(sys)
  {
    hide LinkInv, EndInv, Local, Enabled, EndCost, WireCost, Sized, OutCost, UpInv, Internal;
    var e, o := sys.l.ends.Of(side), Local(sys.l.ends.Of(side), st, true);
    EndInvOf(sys.l, side);
    InvSized(sys.l, side);
    assert SideInv(sys, data, side);
    ClosedIsIdle(e, sys.src.Of(side), data.Of(side));
    InternalLowers(e, st, sys.eof.Of(side));
    LocalAccounts(e, st, true);
    SendCosts(sys.l, side, o.end, o.out);
  }

  lemma ClosedIsIdle(e: End, src: seq<byte>, all: seq<byte>)
    requires UpInv(e.tx, e.status, src, all)
    ensures e.status == Closed ==> e.tx.writer == WIdle
  {
  }

  /** What CallLowers needs. */
  lemma CallIsReady(sys: Sys, data: Pair<seq<byte>>, step: SysStep)
    requires RelayInv(sys, data) && CanSys(sys, step) && !step.Inner?
    ensures var side, e := step.side, sys.l.ends.Of(step.side);
            && EndInv(e) && UpInv(e.tx, e.status, sys.src.Of(side), data.Of(side)) && sys.l.up
            && (sys.eof.Of(side) ==> e.rx.reader == RIdle)
            && (step.Upload? ==> 0 < step.n <= |sys.src.Of(side)| && e.status == Open)
            && (step.Download? ==> !sys.eof.Of(side)) && (step.Finish? ==> e.status == WriteClosed)
            && Enabled(e, CallOf(step, sys.src.Of(side)))
  {
    hide LinkInv, EndInv, UpInv, Local, Enabled, Internal, CanReceive, CallOf;
    assert SideInv(sys, data, step.side);
    EndInvOf(sys.l, step.side);
  }

  lemma CallFalls(sys: Sys, data: Pair<seq<byte>>, step: SysStep)
    requires RelayInv(sys, data) && CanSys(sys, step) && !step.Inner?
    ensures Cost(SysNext(sys, step)) < Cost(sys)
  {
    hide RelayInv, EndInv, WireCost, EndCost, Local, Enabled, Internal, CanReceive, UpInv, CallOf, SrcAfter, EofAfter;
    CallIsReady(sys, data, step);
    var side, e := step.side, sys.l.ends.Of(step.side);
    CallLowers(e, sys.src.Of(side), step, sys.eof.Of(side), data.Of(side));
    SendCosts(sys.l, side, Local(e, CallOf(step, sys.src.Of(side)), true).end, []);
  }

  /** The same for one end: the calls that Relay makes, and their returns. */
  lemma CallLowers(e: End, src: seq<byte>, step: SysStep, eof: bool, up: seq<byte>)
    requires EndInv(e) && !step.Inner? && UpInv(e.tx, e.status, src, up)
    requires eof ==> e.rx.reader == RIdle
    requires step.Upload? ==> 0 < step.n <= |src| && e.status == Open
    requires step.Download? ==> !eof
    requires step.Finish? ==> e.status == WriteClosed
    requires Enabled(e, CallOf(step, src))
    ensures var o := Local(e, CallOf(step, src), true);
            && o.out == []
            && EndCost(o.end, EofAfter(step, e, eof)) + 21 * |SrcAfter(step, e, src)| < EndCost(e, eof) + 21 * |src|
  {
    match step
    case Upload(_, n) =>
    case Uploaded(_) =>
    case UploadEof(_) =>
    case Download(_) =>
    case Downloaded(_) =>
    case Finish(_) =>
  }

  lemma DeliverCosts(l: Link, s: Side)
    requires l.hands.Of(s).Some?
    ensures WireCost(l) == WireCost(l.(hands := l.hands.With(s, None))) + MessageCost(l.hands.Of(s).value)
  {
    var m, l' := l.hands.Of(s).value, l.(hands := l.hands.With(s, None));
    assert Flight(l, s) == [m] + Flight(l', s);
    assert Flight(l, s)[1..] == Flight(l', s);
    assert Flight(l, s.Other()) == Flight(l', s.Other());
  }

  lemma ReceiveCosts(e: End, m: Message, eof: bool)
    requires CanReceive(e, m)
    ensures EndCost(Receive(e, m), eof) < EndCost(e, eof) + MessageCost(m)
  {
  }

  lemma DeliverFalls(sys: Sys, s: Side)
    requires CanSys(sys, Inner(Deliver(s)))
    ensures Cost(SysNext(sys, Inner(Deliver(s)))) < Cost(sys)
  {
    hide EndCost, MessageCost, FlightCost, Receive, CanReceive, Enabled, Local, Internal;
    DeliverCosts(sys.l, s);
    ReceiveCosts(sys.l.ends.Of(s.Other()), sys.l.hands.Of(s).value, sys.eof.Of(s.Other()));
    var l' := SysNext(sys, Inner(Deliver(s))).l;
    assert Flight(l', Server) == Flight(sys.l.(hands := l'.hands), Server);
    assert Flight(l', Client) == Flight(sys.l.(hands := l'.hands), Client);
  }

  lemma LookupCosts(l: Link, s: Side)
    requires CanStep(l, Lookup(s))
    ensures WireCost(LookupStep(l, s)) < WireCost(l)
  {
    LookupFlights(l, s);
    hide LookupStep, Flight, MessageCost, CanStep;
  }

  lemma LookupFlights(l: Link, s: Side)
    requires CanStep(l, Lookup(s))
    ensures var l' := LookupStep(l, s);
            && Flight(l, s) != [] && (Flight(l', s) == Flight(l, s) || Flight(l', s) == Flight(l, s)[1..])
            && Flight(l, s.Other()) == Flight(l', s.Other())
            && |l'.wires.Of(s)| == |l.wires.Of(s)| - 1 && l'.wires.Of(s.Other()) == l.wires.Of(s.Other())
  {
    hide Enabled, Local, Receive, CanReceive, NewEnd;
    assert Flight(l, s) == l.wires.Of(s);
    assert l.wires.Of(s) == [l.wires.Of(s)[0]] + l.wires.Of(s)[1..];
  }

  lemma LookupFalls(sys: Sys, s: Side)
    requires LinkInv(sys.l) && CanSys(sys, Inner(Lookup(s)))
    ensures Cost(SysNext(sys, Inner(Lookup(s)))) < Cost(sys)
  {
    hide DirInv, ShapeInv, EndInv, WireCost, Enabled, Local, Receive, CanReceive, Internal;
    LookupCosts(sys.l, s);
    if sys.l.wires.Of(s)[0].New? {
      NewIsFirst(sys.l, s);
      EndInvLive(sys.l.ends.client);
    }
  }

  lemma AcceptFalls(sys: Sys)
    requires CanSys(sys, Inner(Accept))
    ensures Cost(SysNext(sys, Inner(Accept))) < Cost(sys)
  {
    hide FlightCost, Enabled, Local, Receive, CanReceive, Internal;
    SameFlights(sys.l, SysNext(sys, Inner(Accept)).l);
  }

  /** Every step of the relayed connection lowers its cost, so every run ends. */
  lemma StepLowers(sys: Sys, data: Pair<seq<byte>>, step: SysStep)
    requires RelayInv(sys, data) && CanSys(sys, step)
    ensures Cost(SysNext(sys, step)) < Cost(sys)
  {
    hide LinkInv, SysNext, Cost, CanStep;
    match step
    case Inner(At(side, st)) => InternalFalls(sys, data, side, st);
    case Inner(Lookup(s)) => LookupFalls(sys, s);
    case Inner(Deliver(s)) => DeliverFalls(sys, s);
    case Inner(_) => AcceptFalls(sys);
    case _ => CallFalls(sys, data, step);
  }

  /** Both ends are closed, nothing is on the way, and each outside connection has got exactly
      what the other one sent, and then its end. */
  ghost predicate Finished(sys: Sys, data: Pair<seq<byte>>) {
    && sys.l.wires == Pair([], []) && sys.l.hands == Pair(None, None)
    && sys.out == Pair(data.client, data.server) && sys.eof == Pair(true, true)
    && (forall side: Side :: sys.l.ends.Of(side).closer == CDone && !sys.l.ends.Of(side).life.live)
  }

  /** A goroutine of an end that can go on now. */
  function Runnable(e: End): Option<Step> {
    if e.life.opening.Some? then Some(OnCtl(SendNew))
    else match e.tx.writer
      case WLoop(_, _) => Some(OnTx(WriteLoop))
      case WParking(_, _) => Some(OnTx(WritePark))
      case WSending(_, _, _) => Some(OnTx(WriteSend))
      case WFinishing => Some(OnTx(SendFin))
      case _ =>
        match e.rx.reader
        case RLoop(_) => Some(OnRx(ReadLoop))
        case RParking(_) => Some(OnRx(ReadPark))
        case RCrediting(_) => Some(OnRx(ReadCredit))
        case _ =>
          match e.closer
          case CWakeReader => Some(OnCtl(WakeReader))
          case CWakeWriter => Some(OnCtl(WakeWriter))
          case CRemove => Some(OnCtl(Remove))
          case CSendFin => Some(OnCtl(CloseSend))
          case _ => None
  }

  lemma RunnableCan(e: End)
    requires EndInv(e)
    ensures Runnable(e).Some? ==> Enabled(e, Runnable(e).value) && Internal(Runnable(e).value)
  {
  }

  lemma RunnableOpens(e: End)
    requires Runnable(e).None?
    ensures e.life.opening.None?
  {
  }

  /** Relay's own next move at an end, when no call is in progress there. */
  function RelayMove(sys: Sys, side: Side): Option<SysStep> {
    var e := sys.l.ends.Of(side);
    if !e.life.usable then None
    else if e.tx.writer.WReturned? then Some(Uploaded(side))
    else if e.rx.reader.RReturned? then Some(Downloaded(side))
    else if e.tx.writer == WIdle && e.status == Open then
      Some(if sys.src.Of(side) == [] then UploadEof(side) else Upload(side, Min(BUFFER_SIZE, |sys.src.Of(side)|)))
    else if e.rx.reader == RIdle && !sys.eof.Of(side) then Some(Download(side))
    else if sys.eof.Of(side) && e.status == WriteClosed && e.tx.writer == WIdle then Some(Finish(side))
    else None
  }

  lemma RelayMoveCan(sys: Sys, side: Side)
    ensures RelayMove(sys, side).Some? ==> CanSys(sys, RelayMove(sys, side).value)
  {
    hide Local, CanReceive, Receive;
  }

  /** Nothing can be done at an end, and nothing is on the way to it. */
  ghost predicate AtRest(sys: Sys, side: Side) {
    && Runnable(sys.l.ends.Of(side)).None? && RelayMove(sys, side).None?
    && sys.l.hands.Of(side.Other()).None? && sys.l.wires.Of(side.Other()) == []
    && sys.l.ends.Of(side).life.usable
  }

  /** An end that is alive at rest has its writer parked, or its reader. */
  lemma RestingEnd(sys: Sys, data: Pair<seq<byte>>, side: Side)
    requires RelayInv(sys, data) && AtRest(sys, side)
    ensures var e := sys.l.ends.Of(side);
            e.closer == CDone || (e.closer == CNone && (e.tx.writer.WParked? || e.rx.reader.RParked?))
    ensures var e := sys.l.ends.Of(side);
            && (e.tx.writer.WParked? || (e.tx.writer == WIdle && e.tx.finAt.Some?))
            && (e.rx.reader.RParked? || (e.rx.reader == RIdle && sys.eof.Of(side)))
  {
    hide LinkInv;
    EndInvOf(sys.l, side);
    assert SideInv(sys, data, side);
  }

  /** A live end, or one still to be closed, is in its channel map. */
  lemma OpenIsLive(sys: Sys, data: Pair<seq<byte>>, side: Side)
    requires RelayInv(sys, data) && sys.l.ends.Of(side).closer == CNone && sys.l.ends.Of(side).life.made
    ensures sys.l.ends.Of(side).life.live
  {
    hide ShapeInv;
    EndInvOf(sys.l, side);
    assert side.Other().Other() == side;
    assert FinInv(ToDir(sys.l, side.Other()));
  }

  /** No writer waits for ever: with nothing on the way, its credit is at the other end, in a
      buffer whose reader would have something to read. */
  lemma NoWriterStarves(sys: Sys, data: Pair<seq<byte>>, side: Side)
    requires RelayInv(sys, data) && AtRest(sys, side) && AtRest(sys, side.Other())
    ensures !sys.l.ends.Of(side).tx.writer.WParked?
  {
    hide ShapeInv, DeliveryInv, FinInv;
    var o := side.Other();
    assert o.Other() == side;
    var e, f := sys.l.ends.Of(side), sys.l.ends.Of(o);
    assert CreditInv(ToDir(sys.l, side));
    if e.tx.writer.WParked? {
      EndInvOf(sys.l, side);
      EndInvOf(sys.l, o);
      assert SideInv(sys, data, side) && SideInv(sys, data, o);
      RestingEnd(sys, data, side);
      RestingEnd(sys, data, o);
      OpenIsLive(sys, data, side);
      if sys.eof.Of(o) {
        NothingMoreToSend(sys, data, side);
      } else {
        OpenIsLive(sys, data, o);
      }
    }
  }

  /** No reader waits for ever: the other end has sent its close frame, and it is not on the way. */
  lemma NoReaderStarves(sys: Sys, data: Pair<seq<byte>>, side: Side)
    requires RelayInv(sys, data) && AtRest(sys, side) && AtRest(sys, side.Other())
    ensures !sys.l.ends.Of(side).rx.reader.RParked?
  {
    hide ShapeInv, CreditInv;
    var o := side.Other();
    assert o.Other() == side;
    assert FinInv(ToDir(sys.l, o));
    if sys.l.ends.Of(side).rx.reader.RParked? {
      EndInvOf(sys.l, side);
      RestingEnd(sys, data, side);
      RestingEnd(sys, data, o);
      NoWriterStarves(sys, data, o);
      OpenIsLive(sys, data, side);
    }
  }

  lemma RestIsFinished(sys: Sys, data: Pair<seq<byte>>)
    requires RelayInv(sys, data) && AtRest(sys, Server) && AtRest(sys, Client)
    ensures Finished(sys, data)
  {
    hide LinkInv;
    forall side: Side ensures sys.l.ends.Of(side).closer == CDone && !sys.l.ends.Of(side).life.live
                              && sys.eof.Of(side) && sys.out.Of(side) == data.Of(side.Other())
    {
      var o := side.Other();
      assert o.Other() == side;
      assert AtRest(sys, side) && AtRest(sys, o);
      RestingEnd(sys, data, side);
      NoWriterStarves(sys, data, side);
      NoReaderStarves(sys, data, side);
      EndInvOf(sys.l, side);
      assert SideInv(sys, data, side);
    }
    assert sys.out.Of(Server) == data.Of(Client) && sys.out.Of(Client) == data.Of(Server);
    assert sys.eof.Of(Server) && sys.eof.Of(Client);
  }

  lemma HandIsPlain(l: Link, s: Side)
    requires LinkInv(l) && l.hands.Of(s).Some?
    ensures !l.hands.Of(s).value.New?
  {
    hide DirInv, EndInv;
    assert Flight(l, s)[0] == l.hands.Of(s).value;
  }

  /** With no NewChannel frame on the way, both ends are in use. */
  lemma AllIsOpened(sys: Sys, data: Pair<seq<byte>>)
    requires RelayInv(sys, data) && sys.l.ends.server.life.opening.None? && sys.l.wires.server == []
    requires sys.l.ends.client.life.made ==> sys.l.ends.client.life.usable
    ensures sys.l.ends.server.life.usable && sys.l.ends.client.life.usable
  {
    hide DirInv, EndInv;
  }

  /** No deadlock: until the connection is finished some step can be taken, and none of them has
      to take a frame while the channel waits to be accepted. */
  lemma Progress(sys: Sys, data: Pair<seq<byte>>) returns (step: SysStep)
    requires RelayInv(sys, data) && !Finished(sys, data)
    ensures CanSys(sys, step)
    ensures step.Inner? && step.step.Lookup? ==> !(sys.l.ends.client.life.made && !sys.l.ends.client.life.usable)
  {
    hide LinkInv;
    if side: Side :| Runnable(sys.l.ends.Of(side)).Some? {
      EndInvOf(sys.l, side);
      RunnableCan(sys.l.ends.Of(side));
      step := Inner(At(side, Runnable(sys.l.ends.Of(side)).value));
    } else if sys.l.ends.client.life.made && !sys.l.ends.client.life.usable {
      step := Inner(Accept);
    } else if side: Side :| RelayMove(sys, side).Some? {
      RelayMoveCan(sys, side);
      step := RelayMove(sys, side).value;
    } else if side: Side :| sys.l.hands.Of(side).Some? {
      HandIsPlain(sys.l, side);
      assert Runnable(sys.l.ends.Of(side.Other())).None?;
      step := Inner(Deliver(side));
    } else if side: Side :| sys.l.wires.Of(side) != [] {
      step := Inner(Lookup(side));
    } else {
      assert sys.l.wires.Of(Server) == [] && sys.l.wires.Of(Client) == [];
      assert Runnable(sys.l.ends.Of(Server)).None? && Runnable(sys.l.ends.Of(Client)).None?;
      RunnableOpens(sys.l.ends.Of(Server));
      assert RelayMove(sys, Server).None? && RelayMove(sys, Client).None?;
      assert sys.l.hands.Of(Server).None? && sys.l.hands.Of(Client).None?;
      AllIsOpened(sys, data);
      RestIsFinished(sys, data);
    }
  }

  /** Every run of a relayed connection is finite ... */
  lemma {:induction false} RunsAreBounded(sys: Sys, data: Pair<seq<byte>>, steps: seq<SysStep>, sys': Sys)
    requires RelayInv(sys, data) && IsSysRun(sys, steps, sys')
    ensures |steps| + Cost(sys') <= Cost(sys)
    decreases |steps|
  {
    hide RelayInv, CanSys, SysNext, Cost;
    if steps != [] {
      StepLowers(sys, data, steps[0]);
      StepKeepsRelay(sys, data, steps[0]);
      RunsAreBounded(SysNext(sys, steps[0]), data, steps[1..], sys');
    }
  }

  /** ... and when it cannot go on, whatever the order of its steps was, the target has got
      exactly what the public side sent and then end of file, the public side exactly what the
      target sent, and the channel is in neither map. */
  lemma StuckMeansFinished(target: seq<byte>, data: Pair<seq<byte>>, steps: seq<SysStep>, sys: Sys)
    requires |target| <= MAX_TARGET && IsSysRun(Begin(target, data), steps, sys)
    requires forall step :: !CanSys(sys, step)
    ensures Finished(sys, data) && |steps| <= Cost(Begin(target, data))
  {
    hide RelayInv, CanSys, SysNext, Cost, Finished;
    BeginInv(target, data);
    RunKeepsRelay(Begin(target, data), data, steps, sys);
    RunsAreBounded(Begin(target, data), data, steps, sys);
    if !Finished(sys, data) {
      var step := Progress(sys, data);
    }
  }

  /** io.CopyBuffer works with 32 KiB: no Write is of more, and every Read has room for that much. */
  lemma CopySizes(sys: Sys, data: Pair<seq<byte>>, side: Side)
    requires RelayInv(sys, data)
    ensures forall n :: CanSys(sys, Upload(side, n)) ==> 0 < n <= 32768
    ensures var r := sys.l.ends.Of(side).rx.reader; r.RLoop? || r.RParking? || r.RParked? ==> r.max == 32768
  {
    hide LinkInv, UpInv;
    assert SideInv(sys, data, side);
  }

  /** At every moment what has come out is a prefix of what goes in, and it is all of it when
      the outside connection is half-closed. */
  lemma OutputIsPrefix(target: seq<byte>, data: Pair<seq<byte>>, steps: seq<SysStep>, sys: Sys, side: Side)
    requires |target| <= MAX_TARGET && IsSysRun(Begin(target, data), steps, sys)
    ensures sys.out.Of(side) <= data.Of(side.Other())
    ensures sys.eof.Of(side) ==> sys.out.Of(side) == data.Of(side.Other())
  {
    hide RelayInv, SysNext, CanSys;
    BeginInv(target, data);
    RunKeepsRelay(Begin(target, data), data, steps, sys);
    GotIsPrefix(sys, data, side);
  }

  lemma GotIsPrefix(sys: Sys, data: Pair<seq<byte>>, side: Side)
    requires RelayInv(sys, data)
    ensures sys.out.Of(side) <= data.Of(side.Other())
    ensures sys.eof.Of(side) ==> sys.out.Of(side) == data.Of(side.Other())
  {
    hide EndInv, ShapeInv, FinInv, CreditInv, DownInv, UpInv;
    var r, s := sys.l.ends.Of(side), sys.l.ends.Of(side.Other());
    assert side.Other().Other() == side;
    var d := ToDir(sys.l, side.Other());
    assert DirInv(d) && TakenIn(r) <= s.tx.sent;
    assert SideInv(sys, data, side) && SideInv(sys, data, side.Other());
    SentIsPrefix(s.tx, s.status, sys.src.Of(side.Other()), data.Of(side.Other()));
    OutIsGot(r.rx, r.status, sys.out.Of(side), sys.eof.Of(side), data.Of(side.Other()));
    assert sys.out.Of(side) <= TakenIn(r);
  }

  lemma SentIsPrefix(tx: Tx, status: Status, src: seq<byte>, all: seq<byte>)
    requires UpInv(tx, status, src, all)
    ensures tx.sent <= all
  {
  }

  lemma OutIsGot(rx: Rx, status: Status, out: seq<byte>, eof: bool, all: seq<byte>)
    requires DownInv(rx, status, out, eof, all)
    ensures out <= rx.got && (eof ==> out == all)
  {
  }

  /** An end leaves its channel map only when no undelivered byte is on its way to it. */
  lemma CloseDiscardsNothing(sys: Sys, data: Pair<seq<byte>>, side: Side)
    requires RelayInv(sys, data) && sys.l.ends.Of(side).life.made && !sys.l.ends.Of(side).life.live
    ensures DataOf(Flight(sys.l, side.Other())) == [] && sys.out.Of(side) == data.Of(side.Other())
  {
    hide ShapeInv, CreditInv, DeliveryInv;
    EndInvOf(sys.l, side);
    assert side.Other().Other() == side;
    assert FinInv(ToDir(sys.l, side.Other()));
    assert SideInv(sys, data, side);
  }
}
