/** What one call of Read or Write on a channel returns, in every run: the call is followed from
    its first step to its return, with any steps of other goroutines, of the peer and of the
    connection in between. */
module CallTheorems {
  import opened Basics
  import opened ChannelEnd
  import opened Direction
  import opened Link
  import opened ChannelTheorems

  /** A call Read(max) that began when `got` had been read: what it has taken so far. */
  ghost predicate InRead(rx: Rx, max: nat, got: seq<byte>) {
    match rx.reader
    case RIdle => false
    case RLoop(m) => m == max && rx.got == got
    case RParking(m) => m == max && rx.got == got
    case RParked(m) => m == max && rx.got == got
    case RCrediting(d) => 0 < |d| <= max && rx.got == got + d
    case RReturned(d, err) =>
      && |d| <= max && rx.got == got + d
      && (err != NoError ==> d == [])
      && (err == NoError && d == [] ==> max == 0)
  }

  /** A call Write(b) that began when `sent` had been sent. */
  ghost predicate InWrite(tx: Tx, b: seq<byte>, sent: seq<byte>) {
    match tx.writer
    case WIdle => false
    case WFinishing => false
    case WLoop(rest, total) => total <= |b| && rest == b[total..] && tx.sent == sent + b[..total]
    case WParking(rest, total) => rest != [] && total <= |b| && rest == b[total..] && tx.sent == sent + b[..total]
    case WParked(rest, total) => rest != [] && total <= |b| && rest == b[total..] && tx.sent == sent + b[..total]
    case WSending(chunk, rest, total) =>
      chunk != [] && total <= |b| && chunk + rest == b[total..] && tx.sent == sent + b[..total]
    case WReturned(n, ok) =>
      && n <= |b| && tx.sent == sent + b[..n]
      && (ok ==> n == |b|) && (!ok && b != [] ==> n < |b|)
  }

  lemma ReaderInRead(rx: Rx, closed: bool, step: ReaderStep, max: nat, got: seq<byte>)
    requires ReaderEnabled(rx, true, step) && InRead(rx, max, got) && step != ReadDone
    ensures InRead(ReaderNext(rx, closed, step), max, got)
  {
  }

  lemma LocalInRead(e: End, step: Step, up: bool, max: nat, got: seq<byte>)
    requires Enabled(e, step) && InRead(e.rx, max, got) && step != OnRx(ReadDone)
    ensures InRead(Local(e, step, up).end.rx, max, got)
  {
    match step
    case OnRx(r) => ReaderInRead(e.rx, e.status == Closed, r, max, got);
    case _ =>
  }

  lemma ChunkInWrite(tx: Tx, up: bool, b: seq<byte>, sent: seq<byte>)
    requires tx.writer.WSending? && InWrite(tx, b, sent)
    ensures InWrite(WriteSendStep(tx, up), b, sent)
  {
    var chunk, rest, total := tx.writer.chunk, tx.writer.rest, tx.writer.total;
    var now := total + |chunk|;
    Pieces(chunk, rest, []);
    Rejoined(b, total, now);
    Pieces(sent, b[..total], chunk);
  }

  lemma LoopInWrite(tx: Tx, status: Status, b: seq<byte>, sent: seq<byte>)
    requires tx.writer.WLoop? && InWrite(tx, b, sent)
    ensures InWrite(WriteLoopStep(tx, status), b, sent)
  {
    var rest := tx.writer.rest;
    if rest != [] && tx.window > 0 {
      Rejoined(rest, Min(|rest|, tx.window), |rest|);
    }
  }

  lemma WriterInWrite(tx: Tx, status: Status, step: WriterStep, up: bool, b: seq<byte>, sent: seq<byte>)
    requires WriterEnabled(tx, true, status, step) && InWrite(tx, b, sent) && step != WriteDone
    ensures InWrite(WriterNext(tx, status, step, up), b, sent)
  {
    hide WriteLoopStep, WriteSendStep;
    match step
    case WriteSend => ChunkInWrite(tx, up, b, sent);
    case WriteLoop => LoopInWrite(tx, status, b, sent);
    case _ =>
  }

  lemma LocalInWrite(e: End, step: Step, up: bool, b: seq<byte>, sent: seq<byte>)
    requires Enabled(e, step) && InWrite(e.tx, b, sent) && step != OnTx(WriteDone)
    ensures InWrite(Local(e, step, up).end.tx, b, sent)
  {
    match step
    case OnTx(w) => WriterInWrite(e.tx, e.status, w, up, b, sent);
    case _ =>
  }

  /** What happens to one end in one step of the channel: nothing, a local step, the handling of
      a frame, or it is created or accepted. */
  lemma EndAfterStep(l: Link, step: LinkStep, side: Side)
    requires LinkInv(l) && CanStep(l, step) && l.ends.Of(side).life.usable
    ensures var e, e' := l.ends.Of(side), Next(l, step).ends.Of(side);
            || (e'.rx == e.rx && e'.tx == e.tx)
            || (step.At? && step.side == side && e' == Local(e, step.step, l.up).end)
            || (step == Deliver(side.Other()) && CanReceive(e, l.hands.Of(side.Other()).value)
                && e' == Receive(e, l.hands.Of(side.Other()).value))
  {
    hide DirInv, ShapeInv;
    EndInvLive(l.ends.Of(side));
    if step.Lookup? && l.wires.Of(step.sender)[0].New? {
      NewIsFirst(l, step.sender);
    }
  }

  lemma InCallIsUsable(e: End)
    requires EndInv(e) && (e.rx.reader != RIdle || e.tx.writer != WIdle)
    ensures e.life.usable
  {
  }

  lemma StepIsEnabled(l: Link, step: LinkStep)
    requires CanStep(l, step)
    ensures step.At? ==> Enabled(l.ends.Of(step.side), step.step)
  {
  }

  lemma StepInRead(l: Link, step: LinkStep, side: Side, max: nat, got: seq<byte>)
    requires LinkInv(l) && CanStep(l, step) && step != At(side, OnRx(ReadDone))
    requires InRead(l.ends.Of(side).rx, max, got)
    ensures InRead(Next(l, step).ends.Of(side).rx, max, got)
  {
    hide LinkInv, Next, EndInv, CanStep;
    InvEnd(l, side);
    InCallIsUsable(l.ends.Of(side));
    EndAfterStep(l, step, side);
    StepIsEnabled(l, step);
    if step.At? && step.side == side {
      hide InRead, Local;
      LocalInRead(l.ends.Of(side), step.step, l.up, max, got);
    }
  }

  lemma StepInWrite(l: Link, step: LinkStep, side: Side, b: seq<byte>, sent: seq<byte>)
    requires LinkInv(l) && CanStep(l, step) && step != At(side, OnTx(WriteDone))
    requires InWrite(l.ends.Of(side).tx, b, sent)
    ensures InWrite(Next(l, step).ends.Of(side).tx, b, sent)
  {
    hide LinkInv, Next, EndInv, CanStep;
    InvEnd(l, side);
    InCallIsUsable(l.ends.Of(side));
    EndAfterStep(l, step, side);
    StepIsEnabled(l, step);
    if step.At? && step.side == side {
      hide InWrite, Local;
      LocalInWrite(l.ends.Of(side), step.step, l.up, b, sent);
    }
  }

  lemma InvEnd(l: Link, side: Side)
    requires LinkInv(l)
    ensures EndInv(l.ends.Of(side))
  {
  }

  lemma {:induction false} RunInRead(l: Link, steps: seq<LinkStep>, l': Link, side: Side, max: nat, got: seq<byte>)
    requires LinkInv(l) && IsRun(l, steps, l') && InRead(l.ends.Of(side).rx, max, got)
    requires At(side, OnRx(ReadDone)) !in steps
    ensures InRead(l'.ends.Of(side).rx, max, got)
    decreases |steps|
  {
    hide LinkInv, InRead, Next, CanStep;
    if steps != [] {
      StepInRead(l, steps[0], side, max, got);
      StepKeepsInv(l, steps[0]);
      RunInRead(Next(l, steps[0]), steps[1..], l', side, max, got);
    }
  }

  lemma {:induction false} RunInWrite(l: Link, steps: seq<LinkStep>, l': Link, side: Side, b: seq<byte>, sent: seq<byte>)
    requires LinkInv(l) && IsRun(l, steps, l') && InWrite(l.ends.Of(side).tx, b, sent)
    requires At(side, OnTx(WriteDone)) !in steps
    ensures InWrite(l'.ends.Of(side).tx, b, sent)
    decreases |steps|
  {
    hide LinkInv, InWrite, Next, CanStep;
    if steps != [] {
      StepInWrite(l, steps[0], side, b, sent);
      StepKeepsInv(l, steps[0]);
      RunInWrite(Next(l, steps[0]), steps[1..], l', side, b, sent);
    }
  }

  /** A call Read(max), from its first step in any reachable state to its return: it returns the
      bytes taken since then, at most `max` of them; an error comes with no bytes, and no bytes
      come without an error only if there was no room for any. */
  lemma ReadReturns(l: Link, side: Side, max: nat, steps: seq<LinkStep>, l': Link)
    requires Reachable(l) && CanStep(l, At(side, OnRx(Read(max))))
    requires IsRun(Next(l, At(side, OnRx(Read(max)))), steps, l') && At(side, OnRx(ReadDone)) !in steps
    ensures var r := l'.ends.Of(side).rx.reader;
            && !r.RIdle?
            && (r.RReturned? ==>
                  && |r.data| <= max && l'.ends.Of(side).rx.got == l.ends.Of(side).rx.got + r.data
                  && (r.err != NoError ==> r.data == [])
                  && (r.err == NoError && r.data == [] ==> max == 0))
  {
    ReachableInv(l);
    var got, begun := l.ends.Of(side).rx.got, Next(l, At(side, OnRx(Read(max))));
    StepKeepsInv(l, At(side, OnRx(Read(max))));
    assert InRead(begun.ends.Of(side).rx, max, got);
    RunInRead(begun, steps, l', side, max, got);
  }

  /** A call Write(b), in the same way: the count it returns is that of the bytes it has sent,
      which are the first ones of `b`; it is all of them on success and not all on failure. A
      call on a channel closed for writing sends nothing. */
  lemma WriteReturns(l: Link, side: Side, b: seq<byte>, steps: seq<LinkStep>, l': Link)
    requires Reachable(l) && CanStep(l, At(side, OnTx(Write(b))))
    requires IsRun(Next(l, At(side, OnTx(Write(b)))), steps, l') && At(side, OnTx(WriteDone)) !in steps
    ensures var w := l'.ends.Of(side).tx.writer;
            && !w.WIdle?
            && (w.WReturned? ==>
                  && w.total <= |b| && l'.ends.Of(side).tx.sent == l.ends.Of(side).tx.sent + b[..w.total]
                  && (w.ok ==> w.total == |b|) && (!w.ok && b != [] ==> w.total < |b|))
    ensures l.ends.Of(side).status != Open ==> l'.ends.Of(side).tx.writer == WReturned(0, false)
  {
    hide LinkInv, Reachable, Next, CanStep, IsRun, InWrite;
    ReachableInv(l);
    var sent, begun := l.ends.Of(side).tx.sent, Next(l, At(side, OnTx(Write(b))));
    StepKeepsInv(l, At(side, OnTx(Write(b))));
    WriteBegins(l, side, b);
    RunInWrite(begun, steps, l', side, b, sent);
    InWriteMeans(l'.ends.Of(side).tx, b, sent);
    if l.ends.Of(side).status != Open {
      ReturnedStays(begun, steps, l', side);
    }
  }

  lemma InWriteMeans(tx: Tx, b: seq<byte>, sent: seq<byte>)
    requires InWrite(tx, b, sent)
    ensures var w := tx.writer;
            && !w.WIdle?
            && (w.WReturned? ==> w.total <= |b| && tx.sent == sent + b[..w.total]
                                 && (w.ok ==> w.total == |b|) && (!w.ok && b != [] ==> w.total < |b|))
  {
  }

  lemma WriteBegins(l: Link, side: Side, b: seq<byte>)
    requires CanStep(l, At(side, OnTx(Write(b))))
    ensures InWrite(Next(l, At(side, OnTx(Write(b)))).ends.Of(side).tx, b, l.ends.Of(side).tx.sent)
    ensures l.ends.Of(side).status != Open ==>
              Next(l, At(side, OnTx(Write(b)))).ends.Of(side).tx.writer == WReturned(0, false)
  {
    var sent := l.ends.Of(side).tx.sent;
    assert sent + b[..0] == sent && b[0..] == b;
  }

  lemma StepAfterReturn(l: Link, step: LinkStep, side: Side)
    requires LinkInv(l) && CanStep(l, step) && step != At(side, OnTx(WriteDone))
    requires l.ends.Of(side).tx.writer.WReturned?
    ensures Next(l, step).ends.Of(side).tx.writer == l.ends.Of(side).tx.writer
  {
    hide LinkInv, Next, EndInv;
    InvEnd(l, side);
    InCallIsUsable(l.ends.Of(side));
    EndAfterStep(l, step, side);
  }

  lemma {:induction false} ReturnedStays(l: Link, steps: seq<LinkStep>, l': Link, side: Side)
    requires LinkInv(l) && IsRun(l, steps, l') && l.ends.Of(side).tx.writer.WReturned?
    requires At(side, OnTx(WriteDone)) !in steps
    ensures l'.ends.Of(side).tx.writer == l.ends.Of(side).tx.writer
    decreases |steps|
  {
    hide LinkInv, Next, CanStep;
    if steps != [] {
      StepAfterReturn(l, steps[0], side);
      StepKeepsInv(l, steps[0]);
      ReturnedStays(Next(l, steps[0]), steps[1..], l', side);
    }
  }

  /** One pass of Read's loop in any reachable state. With bytes in the buffer it takes as many as
      there is room for, and otherwise all; without, it gives the error that was set, the end of
      file after a local Close, and else it waits. */
  lemma ReadTakesWhatThereIs(l: Link, side: Side, max: nat)
    requires Reachable(l) && l.ends.Of(side).rx.reader == RLoop(max)
    ensures var e, e' := l.ends.Of(side), Next(l, At(side, OnRx(ReadLoop))).ends.Of(side);
            var taken := if e'.rx.reader.RCrediting? then e'.rx.reader.data else [];
            && e.rx.rb == taken + e'.rx.rb && e'.rx.got == e.rx.got + taken
            && (e.rx.rb != [] ==>
                  && |taken| <= max && (|taken| == max || e'.rx.rb == [])
                  && (taken == [] ==> e'.rx.reader == RReturned([], NoError)))
            && (e.rx.rb == [] ==>
                  e'.rx.reader == if e.rx.rerr == Eof then RReturned([], Eof)
                                  else if e.status == Closed then RReturned([], Eof) else RParking(max))
  {
    NothingOverflows(l, side);
  }

  /** The user has the channel or may still get it. */
  predicate InUse(e: End, side: Side) {
    e.life.usable || e.life.opening.Some? || (side == Client && e.life.made)
  }

  /** Where the closing of an end has got to, and what it has told the other side: once its Close or
      CloseWrite is over, with the connection up, its close frame was sent. An end dropped from
      its map without a local Close has been given an error to read, and one whose request could
      not be sent is not in the map. */
  ghost predicate Announced(e: End, side: Side, up: bool) {
    && (up && (e.closer == CDone || (e.status == WriteClosed && e.tx.writer != WFinishing)) ==> e.tx.finAt.Some?)
    && (InUse(e, side) && !e.life.live && e.closer != CSendFin && e.closer != CDone ==> e.rx.rerr != NoError)
    && (side == Server && e.life.made && !e.life.usable && e.life.opening.None? ==> !e.life.live)
  }

  lemma WriterAnnounced(e: End, side: Side, step: WriterStep, up: bool)
    requires EndInv(e) && Enabled(e, OnTx(step)) && Announced(e, side, up)
    ensures Announced(Local(e, OnTx(step), up).end, side, up)
  {
    hide NoLostWakeup;
  }

  lemma ControlAnnounced(e: End, side: Side, step: ControlStep, up: bool)
    requires EndInv(e) && Enabled(e, OnCtl(step)) && Announced(e, side, up) && (side == Client ==> e.life.opening.None?)
    ensures Announced(Local(e, OnCtl(step), up).end, side, up)
  {
    hide NoLostWakeup;
  }

  lemma LocalAnnounced(e: End, side: Side, step: Step, up: bool)
    requires EndInv(e) && Enabled(e, step) && Announced(e, side, up) && (side == Client ==> e.life.opening.None?)
    ensures Announced(Local(e, step, up).end, side, up)
  {
    match step
    case OnRx(r) => hide EndInv;
    case OnTx(w) =>
      hide Local, EndInv, Announced;
      WriterAnnounced(e, side, w, up);
    case OnCtl(c) =>
      hide Local, EndInv, Announced;
      ControlAnnounced(e, side, c, up);
  }

  lemma ReceiveAnnounced(e: End, side: Side, m: Message, up: bool)
    requires CanReceive(e, m) && Announced(e, side, up)
    ensures Announced(Receive(e, m), side, up)
  {
  }

  lemma CreatedAnnounced(up: bool)
    ensures Announced(NewEnd(None), Client, up)
  {
  }

  lemma LookupAnnounced(l: Link, s: Side, side: Side)
    requires LinkInv(l) && CanStep(l, Lookup(s)) && Announced(l.ends.Of(side), side, l.up)
    ensures Announced(LookupStep(l, s).ends.Of(side), side, l.up) && LookupStep(l, s).up == l.up
  {
    hide LinkInv, NewEnd, Announced;
    if l.wires.Of(s)[0].New? {
      NewIsFirst(l, s);
      CreatedAnnounced(l.up);
    }
  }

  lemma ClientOpensNothing(l: Link)
    requires LinkInv(l)
    ensures l.ends.client.life.opening.None?
  {
  }

  /** Making, accepting, and the failure of the connection. */
  lemma OtherAnnounced(l: Link, step: LinkStep, side: Side)
    requires CanStep(l, step) && Announced(l.ends.Of(side), side, l.up)
    requires step.Make? || step.Accept? || step.BeginClose? || step.Cut?
    ensures Announced(Next(l, step).ends.Of(side), side, Next(l, step).up)
  {
  }

  lemma StepAnnounced(l: Link, step: LinkStep, side: Side)
    requires LinkInv(l) && CanStep(l, step) && Announced(l.ends.Of(side), side, l.up)
    ensures Announced(Next(l, step).ends.Of(side), side, Next(l, step).up)
  {
    hide LinkInv, EndInv, Announced, Local, Enabled, Receive, CanReceive, LookupStep;
    InvEnd(l, side);
    ClientOpensNothing(l);
    match step
    case At(s, st) =>
      if s == side {
        LocalAnnounced(l.ends.Of(side), side, st, l.up);
      }
    case Deliver(s) =>
      if s.Other() == side {
        ReceiveAnnounced(l.ends.Of(side), side, l.hands.Of(s).value, l.up);
      }
    case Lookup(s) => LookupAnnounced(l, s, side);
    case _ => OtherAnnounced(l, step, side);
  }

  lemma {:induction false} RunAnnounced(l: Link, steps: seq<LinkStep>, l': Link, side: Side)
    requires LinkInv(l) && IsRun(l, steps, l') && Announced(l.ends.Of(side), side, l.up)
    ensures Announced(l'.ends.Of(side), side, l'.up)
    decreases |steps|
  {
    hide LinkInv, Announced, Next, CanStep;
    if steps != [] {
      StepAnnounced(l, steps[0], side);
      StepKeepsInv(l, steps[0]);
      RunAnnounced(Next(l, steps[0]), steps[1..], l', side);
    }
  }

  lemma ReachableAnnounced(l: Link, side: Side)
    requires Reachable(l)
    ensures Announced(l.ends.Of(side), side, l.up)
  {
    InitInv();
    InitAnnounced(side);
    hide LinkInv, IsRun, Announced;
    var steps :| IsRun(INIT, steps, l);
    RunAnnounced(INIT, steps, l, side);
  }

  lemma InitAnnounced(side: Side)
    ensures Announced(INIT.ends.Of(side), side, INIT.up)
  {
  }

  /** A Close or CloseWrite that is over, with the connection still up, has sent its close frame:
      the other end either has it on its way, behind all the data sent before it, or reads the
      end of file, or is closed, or its connection is being closed. */
  lemma CloseReachesPeer(l: Link, side: Side)
    requires Reachable(l) && l.up
    requires var e := l.ends.Of(side); e.closer == CDone || (e.status == WriteClosed && e.tx.writer != WFinishing)
    ensures l.ends.Of(side).tx.finAt.Some?
    ensures var r := l.ends.Of(side.Other());
            || Fin in Flight(l, side) || r.rx.rerr == Eof || r.status == Closed || l.closing.Of(side.Other())
  {
    hide Reachable, LinkInv, Flight;
    ReachableAnnounced(l, side);
    ReachableInv(l);
    FinOf(l, side);
  }

  lemma FinOf(l: Link, side: Side)
    requires LinkInv(l) && l.up
    ensures FinInv(ToDir(l, side))
  {
  }

  /** A channel dropped from its map by the teardown of the connection fails its next Read once
      its buffer is empty, and keeps no Read waiting. */
  lemma DroppedReaderFails(l: Link, side: Side)
    requires Reachable(l)
    requires var e := l.ends.Of(side); e.life.usable && !e.life.live && e.status != Closed
    ensures l.ends.Of(side).rx.rerr == Eof
    ensures !l.ends.Of(side).rx.reader.RParked? && !l.ends.Of(side).rx.reader.RParking?
  {
    hide Reachable, LinkInv;
    ReachableAnnounced(l, side);
    NothingOverflows(l, side);
    ReachableInv(l);
    InvEnd(l, side);
  }

  /** An OpenChannel that could not send its request has left nothing behind: its id is not in the
      map, and no frame of it is under way. */
  lemma FailedOpenIsGone(l: Link)
    requires Reachable(l)
    requires var e := l.ends.server; e.life.made && !e.life.usable && e.life.opening.None?
    ensures !l.ends.server.life.live && !l.ends.client.life.made
    ensures Flight(l, Server) == [] && Flight(l, Client) == []
  {
    hide Reachable, DirInv, EndInv;
    ReachableAnnounced(l, Server);
    ReachableInv(l);
  }

  /** Mutual exclusion. While Read holds the read lock, on its way to wait or sending its credit,
      no other step touches the receiving half; and while Write is on its way to wait, none the
      sending half. */
  lemma LocksExclude(l: Link, step: LinkStep, side: Side)
    requires LinkInv(l) && CanStep(l, step)
    ensures var e, e' := l.ends.Of(side), Next(l, step).ends.Of(side);
            && ((e.rx.reader.RParking? || e.rx.reader.RCrediting?) && !(step.At? && step.side == side && step.step.OnRx?) ==>
                  e'.rx == e.rx)
            && (e.tx.writer.WParking? && !(step.At? && step.side == side && step.step.OnTx?) ==>
                  e'.tx.writer == e.tx.writer && e'.tx.window == e.tx.window && e'.tx.sent == e.tx.sent)
  {
    hide LinkInv, Next, EndInv, CanStep;
    InvEnd(l, side);
    StepIsEnabled(l, step);
    if l.ends.Of(side).rx.reader != RIdle || l.ends.Of(side).tx.writer != WIdle {
      InCallIsUsable(l.ends.Of(side));
      EndAfterStep(l, step, side);
    }
  }
}
