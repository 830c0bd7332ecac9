/** The channel object itself (relay/stream.go), updated in place. Each method is one critical
    section and does to the object what the function of module ChannelEnd does to its state. */
module ChannelObject {
  import opened Basics
  import opened Bytes
  import opened ChannelEnd
  import opened Direction
  import opened Messages
  import Frames

  /** What sending some messages of a channel writes to the connection. */
  function WireBytes(id: nat, ms: seq<Message>): seq<byte>
    requires id < UINT32
  {
    if ms == [] then [] else FrameBytes(id, ms[0]) + WireBytes(id, ms[1..])
  }

  function FrameBytes(id: nat, m: Message): seq<byte>
    requires id < UINT32
  {
    if Frames.Legal(FrameOf(id, m)) then Frames.Encode(FrameOf(id, m)) else []
  }

  lemma SentBytes(id: nat, up: bool, m: Message)
    requires id < UINT32
    ensures WireBytes(id, Sent(up, m)) == if up && Frames.Legal(FrameOf(id, m)) then Frames.Encode(FrameOf(id, m)) else []
  {
    hide Frames.Encode;
    assert WireBytes(id, [m]) == FrameBytes(id, m) + WireBytes(id, []);
  }

  lemma CreditFrame(id: nat, n: nat)
    requires id < UINT32
    ensures FrameOf(id, Credit(n % UINT32)) == Frames.Frame(WINDOW_UPDATE, Put32(id) + Put32(n % UINT32))
  {
    hide Put32;
  }

  /** A goroutine after a broadcast on the condition it may be waiting for. */
  function Woken(reader: Reader): Reader {
    if reader.RParked? then RLoop(reader.max) else reader
  }

  function Resumed(writer: Writer): Writer {
    if writer.WParked? then WLoop(writer.rest, writer.total) else writer
  }

  // The frames of a channel, byte by byte: length, type, channel id and contents.

  lemma DataBytes(id: nat, b: seq<byte>)
    requires id < UINT32
    ensures var f := FrameOf(id, Data(b));
            && (Frames.Legal(f) <==> 4 + |b| <= 16777216)
            && (Frames.Legal(f) ==> Frames.Encode(f) == Big32(4 + |b|) + [4] + Big32(id) + b)
  {
    Put32IsBig(id);
    if 4 + |b| <= 16777216 {
      Put32IsBig(4 + |b|);
      hide Put32, Big32;
      Pieces(Big32(4 + |b|) + [4], Big32(id), b);
    }
  }

  lemma FinBytes(id: nat)
    requires id < UINT32
    ensures Frames.Legal(FrameOf(id, Fin)) && Frames.Encode(FrameOf(id, Fin)) == [0, 0, 0, 4, 5] + Big32(id)
  {
    Put32IsBig(id);
    Put32IsBig(4);
  }

  lemma EightBytes()
    ensures Put32(8) == [0, 0, 0, 8]
  {
  }

  lemma CreditBytes(id: nat, n: nat)
    requires id < UINT32 && n < UINT32
    ensures var f := FrameOf(id, Credit(n));
            Frames.Legal(f) && Frames.Encode(f) == [0, 0, 0, 8, 9] + Big32(id) + Big32(n)
  {
    Put32IsBig(id);
    Put32IsBig(n);
    EightBytes();
    assert n % UINT32 == n;
    CreditFrame(id, n);
    hide Put32, Big32, FrameOf;
    var payload := Big32(id) + Big32(n);
    assert |payload| == 8;
    assert [0, 0, 0, 8] + [9] + payload == [0, 0, 0, 8, 9] + Big32(id) + Big32(n);
  }

  lemma NewBytes(id: nat, target: seq<byte>)
    requires id < UINT32
    ensures var f := FrameOf(id, New(target));
            && (Frames.Legal(f) <==> 6 + |target| <= 16777216)
            && (Frames.Legal(f) ==>
                  Frames.Encode(f) == Big32(6 + |target|) + [3] + (Big32(id) + Big16(|target| % 0x1_0000) + target))
  {
    Put32IsBig(id);
    Put16IsBig(|target| % 0x1_0000);
    if 6 + |target| <= 16777216 {
      Put32IsBig(6 + |target|);
    }
    hide Put32, Put16, Big32, Big16;
  }

  /** How a call of Write stands: all sent, waiting for credit, or returned with an error. */
  datatype WriteEnd = Complete | Waits | Failed

  class Channel {
    const id: nat
    const target: seq<byte>
    const ctrl: Conn

    var rb: seq<byte>
    var rerr: ReadError
    var status: Status
    var sendWindow: int
    // the goroutines that use the channel: where they are in Read, Write and Close
    var reader: Reader
    var writer: Writer
    var closer: Closer
    // the history of module ChannelEnd
    ghost var got: seq<byte>
    ghost var sent: seq<byte>
    ghost var finAt: Option<nat>

    constructor (id: nat, ctrl: Conn, target: seq<byte>)
      requires id < UINT32
      ensures this.id == id && this.ctrl == ctrl && this.target == target
      ensures IsNew()
      ensures rb == [] && rerr == NoError && status == Open && sendWindow == 65536
      ensures reader == RIdle && writer == WIdle && closer == CNone
    {
      this.id, this.ctrl, this.target := id, ctrl, target;
      rb, rerr, status, sendWindow := [], NoError, Open, DEFAULT_SEND_WINDOW;
      reader, writer, closer := RIdle, WIdle, CNone;
      got, sent, finAt := [], [], None;
    }

    ghost function RxOf(): Rx
      reads this`rb, this`rerr, this`reader, this`got
    {
      Rx(rb, rerr, reader, got)
    }

    ghost function TxOf(): Tx
      reads this`sendWindow, this`writer, this`sent, this`finAt
    {
      Tx(sendWindow, writer, sent, finAt)
    }

    /** The state of NewEnd. */
    ghost predicate IsNew()
      reads this
    {
      RxOf() == UNMADE.rx && TxOf() == UNMADE.tx && status == Open && closer == CNone
    }

    /** rcond.Broadcast */
    method WakeReader()
      modifies this`reader
      ensures RxOf() == WakeRx(old(RxOf())) && reader == Woken(old(reader))
    {
      if reader.RParked? {
        reader := RLoop(reader.max);
      }
    }

    /** wcond.Broadcast */
    method WakeWriter()
      modifies this`writer
      ensures TxOf() == WakeTx(old(TxOf())) && writer == Resumed(old(writer))
    {
      if writer.WParked? {
        writer := WLoop(writer.rest, writer.total);
      }
    }

    /** Read, one pass of its loop. */
    method ReadPass()
      requires reader.RLoop?
      modifies this`rb, this`reader, this`got
      ensures RxOf() == ReadLoopStep(old(RxOf()), status == Closed)
      ensures old(rb) != [] ==>
                var d := if reader.RCrediting? then reader.data else [];
                && old(rb) == d + rb && got == old(got) + d
                && |d| <= old(reader.max) && (|d| == old(reader.max) || rb == [])
                && (d == [] ==> reader == RReturned([], NoError))
      ensures old(rb) == [] ==>
                && rb == [] && got == old(got)
                && reader == (if rerr != NoError then RReturned([], rerr)
                              else if status == Closed then RReturned([], Eof) else RParking(old(reader.max)))
    {
      if rb == [] {
        if rerr != NoError {
          reader := RReturned([], rerr);
        } else if status == Closed {
          reader := RReturned([], Eof);
        } else {
          reader := RParking(reader.max);
        }
      } else {
        var n := Min(reader.max, |rb|);
        var data := rb[..n];
        rb := rb[n..];
        got := got + data;
        reader := if n > 0 then RCrediting(data) else RReturned([], NoError);
      }
    }

    /** sendWindowUpdate, and Read's return. */
    method SendWindowUpdate()
      requires id < UINT32 && reader.RCrediting?
      modifies this`reader, ctrl`output
      ensures RxOf() == ReaderNext(old(RxOf()), status == Closed, ReadCredit)
      ensures ctrl.output == old(ctrl.output) + WireBytes(id, ReaderOut(old(RxOf()), ReadCredit, ctrl.up))
      ensures reader == RReturned(old(reader.data), NoError)
      ensures ctrl.output == old(ctrl.output) + if ctrl.up then [0, 0, 0, 8, 9] + Big32(id) + Big32(old(|reader.data|) % 0x1_0000_0000)
                                                else []
    {
      var delta := |reader.data|;
      SentBytes(id, ctrl.up, Credit(delta % UINT32));
      CreditFrame(id, delta);
      CreditBytes(id, delta % UINT32);
      hide WireBytes, Frames.Encode, Frames.Legal, Put32, Sent, FrameOf;
      reader := RReturned(reader.data, NoError);
      var ok := Frames.WriteFrame(ctrl, WINDOW_UPDATE, Put32(id) + Put32(delta % UINT32));
    }

    /** On an overflow the caller is told to start a goroutine that calls Close. */
    method PushData(data: seq<byte>) returns (closes: bool)
      modifies this`rb, this`rerr, this`reader
      ensures RxOf() == ChannelEnd.PushData(old(RxOf()), data)
      ensures closes <==> |old(rb)| + |data| > 262144
      ensures rb == (if closes then old(rb) else old(rb) + data) && rerr == (if closes then Overflow else old(rerr))
      ensures reader == Woken(old(reader))
    {
      closes := |rb| + |data| > MAX_RECEIVE_BUFFER;
      if closes {
        rerr := Overflow;
        WakeReader();
      } else {
        rb := rb + data;
        WakeReader();
      }
    }

    method SetError(err: ReadError)
      modifies this`rerr, this`reader
      ensures RxOf() == ChannelEnd.SetError(old(RxOf()), err)
      ensures rerr == err && reader == Woken(old(reader))
    {
      rerr := err;
      WakeReader();
    }

    method AddSendWindow(delta: nat)
      modifies this`sendWindow, this`writer
      ensures TxOf() == ChannelEnd.AddSendWindow(old(TxOf()), delta)
      ensures sendWindow == old(sendWindow) + delta && writer == Resumed(old(writer))
    {
      sendWindow := sendWindow + delta;
      WakeWriter();
    }

    /** Write, one pass of its loop up to the release of wmu. */
    method WritePass()
      requires writer.WLoop?
      modifies this`sendWindow, this`writer
      ensures TxOf() == WriteLoopStep(old(TxOf()), status)
      ensures var rest, total, window := old(writer.rest), old(writer.total), old(sendWindow);
              if rest == [] then writer == WReturned(total, true) && sendWindow == window
              else if window <= 0 then
                writer == (if status == Open then WParking(rest, total) else WReturned(total, false)) && sendWindow == window
              else
                && writer.WSending? && writer.chunk + writer.rest == rest && writer.total == total
                && |writer.chunk| == window - sendWindow > 0 && (writer.rest == [] || sendWindow == 0)
    {
      var rest, total := writer.rest, writer.total;
      if rest == [] {
        writer := WReturned(total, true);
      } else if sendWindow <= 0 {
        if status != Open {
          writer := WReturned(total, false);
        } else {
          writer := WParking(rest, total);
        }
      } else {
        var n := |rest|;
        if n > sendWindow {
          n := sendWindow;
        }
        sendWindow := sendWindow - n;
        writer := WSending(rest[..n], rest[n..], total);
      }
    }

    /** Write, the sending of a chunk. */
    method SendChunk()
      requires id < UINT32 && writer.WSending?
      modifies this`writer, this`sent, ctrl`output
      ensures TxOf() == WriteSendStep(old(TxOf()), ctrl.up)
      ensures ctrl.output == old(ctrl.output) + WireBytes(id, WriterOut(old(TxOf()), status, WriteSend, ctrl.up))
      ensures var chunk, rest, total := old(writer.chunk), old(writer.rest), old(writer.total);
              if ctrl.up && 4 + |chunk| <= 16777216
              then ctrl.output == old(ctrl.output) + (Big32(4 + |chunk|) + [4] + Big32(id) + chunk)
                   && writer == WLoop(rest, total + |chunk|) && sent == old(sent) + chunk
              else ctrl.output == old(ctrl.output) && writer == WReturned(total, false) && sent == old(sent)
    {
      var chunk, rest, total := writer.chunk, writer.rest, writer.total;
      SentBytes(id, ctrl.up, Data(chunk));
      DataBytes(id, chunk);
      hide WireBytes, Frames.Encode;
      var ok := Frames.WriteFrame(ctrl, CHANNEL_DATA, Put32(id) + chunk);
      if ok {
        sent := sent + chunk;
        writer := WLoop(rest, total + |chunk|);
      } else {
        writer := WReturned(total, false);
      }
    }

    /** One chunk: taken from the window and sent. Empty when there is nothing to send or nothing
        to send it with. */
    method WriteChunk() returns (chunk: seq<byte>)
      requires id < UINT32 && writer.WLoop? && status == Open && 0 <= sendWindow <= DEFAULT_SEND_WINDOW
      modifies this`sendWindow, this`writer, this`sent, ctrl`output
      ensures var rest, total := old(writer.rest), old(writer.total);
              && chunk == rest[..Min(|rest|, old(sendWindow))] && sendWindow == old(sendWindow) - |chunk|
              && writer == (if rest == [] then WReturned(total, true)
                            else if chunk == [] then WParking(rest, total)
                            else if ctrl.up then WLoop(rest[|chunk|..], total + |chunk|)
                            else WReturned(total, false))
              && sent == (if chunk != [] && ctrl.up then old(sent) + chunk else old(sent))
      ensures ctrl.output == if chunk != [] && ctrl.up then old(ctrl.output) + WireBytes(id, [Data(chunk)])
                             else old(ctrl.output)
    {
      chunk := [];
      WritePass();
      if writer.WSending? {
        chunk := writer.chunk;
        SendChunk();
      }
    }

    /** Waiting on wcond until a WindowUpdate frame arrives. */
    method Await(credit: nat)
      requires writer.WParking?
      modifies this`sendWindow, this`writer
      ensures sendWindow == old(sendWindow) + credit
      ensures writer == WLoop(old(writer.rest), old(writer.total))
    {
      writer := WParked(writer.rest, writer.total);
      AddSendWindow(credit);
    }

    /** The whole of Write, with the credit that the read loop adds each time it waits; the
        credit is bounded as module ChannelTheorems proves it is. It sends `b` in order, in
        chunks that the window covers, as far as the credit reaches. */
    method Write(b: seq<byte>, credits: seq<nat>) returns (end: WriteEnd, n: nat, used: nat, ghost frames: seq<Message>)
      requires id < UINT32 && writer == WIdle && sendWindow >= 0
      requires sendWindow + Total(credits) <= DEFAULT_SEND_WINDOW
      modifies this`sendWindow, this`writer, this`sent, ctrl`output
      ensures n <= |b| && used <= |credits| && sent == old(sent) + b[..n]
      ensures end.Failed? <==> status != Open || (!ctrl.up && b != [] && old(sendWindow) + Total(credits) > 0)
      ensures end.Failed? ==> n == 0
      ensures !end.Failed? ==> sendWindow == old(sendWindow) + Total(credits[..used]) - n >= 0
      ensures end.Complete? ==> n == |b| && writer == WIdle
      ensures end.Waits? ==> n < |b| && used == |credits| && sendWindow == 0 && writer == WParked(b[n..], n)
      ensures Carries(frames, b[..n]) && ctrl.output == old(ctrl.output) + WireBytes(id, frames)
    {
      hide WireBytes, FrameOf, Frames.Encode, Total, Carries, Going;
      n, used, frames := 0, 0, [];
      ghost var call := Call(id, b, credits, sendWindow, ctrl.up, sent, ctrl.output);
      GoingStart(call);
      if status != Open {
        GoingMeans(call, Point(b, 0, 0, sendWindow, sent, ctrl.output, []));
        return Failed, 0, 0, [];
      }
      writer := WLoop(b, 0);
      while true
        invariant writer.WLoop? && used <= |credits|
        invariant Going(call, Point(writer.rest, writer.total, used, sendWindow, sent, ctrl.output, frames))
        decreases |writer.rest|, |credits| - used
      {
        ghost var before := Point(writer.rest, writer.total, used, sendWindow, sent, ctrl.output, frames);
        GoingMeans(call, before);
        var chunk := WriteChunk();
        match writer
        case WReturned(t, ok) =>
          writer := WIdle;
          return if ok then Complete else Failed, t, used, frames;
        case WParking(rest, t) =>
          if used == |credits| {
            writer := WParked(rest, t);
            return Waits, t, used, frames;
          }
          GoingCredit(call, before);
          Await(credits[used]);
          used := used + 1;
        case WLoop(_, _) =>
          GoingChunk(call, before, |chunk|);
          frames := frames + [Data(chunk)];
      }
    }

    /** CloseWrite's status change; the caller sends the frame next. A Write in progress stays
        where it is. */
    method MarkWriteClosed() returns (first: bool)
      modifies this`status, this`writer
      ensures first == (old(status) == Open)
      ensures status == if first then WriteClosed else old(status)
      ensures TxOf() == if first && old(writer) == WIdle then WriterNext(old(TxOf()), Open, CloseWrite, ctrl.up)
                        else old(TxOf())
      ensures writer == if first && old(writer) == WIdle then WFinishing else old(writer)
    {
      first := status == Open;
      if first {
        status := WriteClosed;
        writer := if writer == WIdle then WFinishing else writer;
      }
    }

    method SendClose()
      requires id < UINT32
      modifies this`finAt, ctrl`output
      ensures TxOf() == MarkFin(old(TxOf()), ctrl.up)
      ensures ctrl.output == old(ctrl.output) + WireBytes(id, Sent(ctrl.up, Fin))
      ensures ctrl.output == old(ctrl.output) + if ctrl.up then [0, 0, 0, 4, 5] + Big32(id) else []
    {
      FinBytes(id);
      var ok := Frames.WriteFrame(ctrl, CHANNEL_CLOSE, Put32(id));
      if ok && finAt == None {
        finAt := Some(|sent|);
      }
    }

    /** Close, its section under cmu: only the first call goes on. */
    method MarkClosed() returns (first: bool)
      modifies this`status, this`closer
      ensures first == (old(status) != Closed) && status == Closed
      ensures closer == if first then CWakeReader else old(closer)
    {
      first := status != Closed;
      if first {
        status, closer := Closed, CWakeReader;
      }
    }

    /** Close, its section under rmu. */
    method BroadcastReader()
      requires closer == CWakeReader
      modifies this`closer, this`reader
      ensures RxOf() == WakeRx(old(RxOf())) && closer == CWakeWriter && reader == Woken(old(reader))
    {
      WakeReader();
      closer := CWakeWriter;
    }

    /** Close, its section under wmu. */
    method BroadcastWriter()
      requires closer == CWakeWriter
      modifies this`closer, this`writer
      ensures TxOf() == WakeTx(old(TxOf())) && closer == CRemove && writer == Resumed(old(writer))
    {
      WakeWriter();
      closer := CRemove;
    }
  }

  /** Data frames, none of them empty, that make up `data`. */
  ghost predicate Carries(frames: seq<Message>, data: seq<byte>) {
    (forall m :: m in frames ==> m.Data? && m.bytes != []) && DataOf(frames) == data
  }

  /** What a call of Write starts from: its arguments, and the channel and connection then. */
  datatype WriteCall = Call(id: nat, b: seq<byte>, credits: seq<nat>, window: int, up: bool, sent: seq<byte>, out: seq<byte>)

  /** Where it is: `rest` is still to be sent, `total` bytes are sent, `used` credits have come. */
  datatype WritePoint = Point(rest: seq<byte>, total: nat, used: nat, window: int, sent: seq<byte>, out: seq<byte>,
                              frames: seq<Message>)

  /** All of the argument but `rest` is sent: in the history, and on the wire in `frames`. */
  ghost predicate Upto(c: WriteCall, p: WritePoint)
    requires c.id < UINT32
  {
    && p.total <= |c.b| && p.rest == c.b[p.total..] && p.sent == c.sent + c.b[..p.total]
    && Carries(p.frames, c.b[..p.total]) && p.out == c.out + WireBytes(c.id, p.frames)
  }

  /** And the window is what it was, with the credit that has come, less what is sent. */
  ghost predicate Going(c: WriteCall, p: WritePoint)
    requires c.id < UINT32
  {
    && Upto(c, p) && p.used <= |c.credits| && p.window >= 0
    && p.window + p.total == c.window + Total(c.credits[..p.used])
    && (p.total > 0 ==> c.up)
  }

  lemma GoingStart(c: WriteCall)
    requires c.id < UINT32 && c.window >= 0
    ensures Going(c, Point(c.b, 0, 0, c.window, c.sent, c.out, []))
  {
    assert c.b[..0] == [] && c.credits[..0] == [];
  }

  lemma GoingMeans(c: WriteCall, p: WritePoint)
    requires c.id < UINT32 && Going(c, p)
    ensures p.total <= |c.b| && p.used <= |c.credits| && p.rest == c.b[p.total..] && |p.rest| == |c.b| - p.total
    ensures p.sent == c.sent + c.b[..p.total] && Carries(p.frames, c.b[..p.total]) && p.out == c.out + WireBytes(c.id, p.frames)
    ensures 0 <= p.window == c.window + Total(c.credits[..p.used]) - p.total
    ensures c.window + Total(c.credits[..p.used]) <= c.window + Total(c.credits) && (p.total > 0 ==> c.up)
    ensures p.used == |c.credits| ==> c.credits[..p.used] == c.credits
  {
    hide Carries, WireBytes, Total;
    TotalPrefix(c.credits, p.used);
  }

  lemma CarriesMore(frames: seq<Message>, data: seq<byte>, chunk: seq<byte>)
    requires Carries(frames, data) && chunk != []
    ensures Carries(frames + [Data(chunk)], data + chunk)
  {
    Appended(frames, Data(chunk));
    assert DataOf([Data(chunk)]) == chunk;
  }

  lemma UptoChunk(c: WriteCall, p: WritePoint, n: nat)
    requires c.id < UINT32 && Upto(c, p) && 0 < n <= |p.rest|
    ensures var chunk := p.rest[..n];
            Upto(c, Point(p.rest[n..], p.total + n, p.used, p.window - n, p.sent + chunk,
                          p.out + WireBytes(c.id, [Data(chunk)]), p.frames + [Data(chunk)]))
  {
    hide WireBytes;
    var chunk := p.rest[..n];
    CarriesMore(p.frames, c.b[..p.total], chunk);
    hide Carries;
    WireBytesAppend(c.id, p.frames, Data(chunk));
    Rejoined(c.b, p.total, p.total + n);
    Pieces(c.out, WireBytes(c.id, p.frames), WireBytes(c.id, [Data(chunk)]));
    Pieces(c.sent, c.b[..p.total], chunk);
  }

  lemma GoingChunk(c: WriteCall, p: WritePoint, n: nat)
    requires c.id < UINT32 && Going(c, p) && 0 < n <= |p.rest| && n <= p.window && c.up
    ensures var chunk := p.rest[..n];
            Going(c, Point(p.rest[n..], p.total + n, p.used, p.window - n, p.sent + chunk,
                           p.out + WireBytes(c.id, [Data(chunk)]), p.frames + [Data(chunk)]))
  {
    UptoChunk(c, p, n);
    hide Upto, WireBytes, Total;
  }

  lemma GoingCredit(c: WriteCall, p: WritePoint)
    requires c.id < UINT32 && Going(c, p) && p.used < |c.credits|
    ensures Going(c, p.(used := p.used + 1, window := p.window + c.credits[p.used]))
  {
    TotalNext(c.credits, p.used);
    hide Carries, WireBytes, Total;
  }

  function Total(credits: seq<nat>): nat {
    if credits == [] then 0 else Total(credits[..|credits| - 1]) + credits[|credits| - 1]
  }

  lemma TotalNext(credits: seq<nat>, k: nat)
    requires k < |credits|
    ensures Total(credits[..k + 1]) == Total(credits[..k]) + credits[k] && credits[..0] == []
  {
    assert credits[..k + 1][..k] == credits[..k];
  }

  lemma {:induction false} TotalPrefix(credits: seq<nat>, k: nat)
    requires k <= |credits|
    ensures Total(credits[..k]) <= Total(credits)
    decreases |credits|
  {
    if k < |credits| {
      var init := credits[..|credits| - 1];
      TotalPrefix(init, k);
      assert init[..k] == credits[..k];
    } else {
      assert credits[..k] == credits;
    }
  }

  lemma {:induction false} WireBytesAppend(id: nat, ms: seq<Message>, m: Message)
    requires id < UINT32
    ensures WireBytes(id, ms + [m]) == WireBytes(id, ms) + WireBytes(id, [m])
  {
    hide FrameBytes;
    var more := ms + [m];
    if ms == [] {
      assert more == [m];
    } else {
      assert more[1..] == ms[1..] + [m] && more[0] == ms[0];
      WireBytesAppend(id, ms[1..], m);
      Pieces(FrameBytes(id, ms[0]), WireBytes(id, ms[1..]), WireBytes(id, [m]));
    }
  }
}
