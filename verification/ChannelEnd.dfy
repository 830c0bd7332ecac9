/** One end of a multiplexed channel (relay/stream.go), as a value.

    Every function below is one critical section of the source: what a goroutine does while it
    holds `rmu`, `wmu` or `cmu`, or the sending of one frame. A call that spans several critical
    sections (Read, Write, Close) is a program counter that these steps advance, so that the
    steps of other goroutines can come in between. */
module ChannelEnd {
  import opened Basics

  const DEFAULT_SEND_WINDOW := 64 * 1024
  const MAX_RECEIVE_BUFFER := 256 * 1024
  const MAX_FRAME_PAYLOAD := 0x100_0000
  const UINT32 := 0x1_0000_0000

  datatype Status = Open | WriteClosed | Closed

  datatype ReadError = NoError | Eof | Overflow

  /** What a control connection carries for one channel: NewChannel, ChannelData,
      ChannelClose and WindowUpdate frames. */
  datatype Message =
    | New(target: seq<byte>)
    | Data(bytes: seq<byte>)
    | Fin
    | Credit(delta: nat)

  /** Where the goroutine calling Read is. `RParking` and `RCrediting` hold `rmu`. */
  datatype Reader =
    | RIdle
    | RLoop(max: nat)
    | RParking(max: nat)
    | RParked(max: nat)
    | RCrediting(data: seq<byte>)
    | RReturned(data: seq<byte>, err: ReadError)

  /** Where the goroutine calling Write and CloseWrite is. `WParking` holds `wmu`. */
  datatype Writer =
    | WIdle
    | WLoop(rest: seq<byte>, total: nat)
    | WParking(rest: seq<byte>, total: nat)
    | WParked(rest: seq<byte>, total: nat)
    | WSending(chunk: seq<byte>, rest: seq<byte>, total: nat)
    | WReturned(total: nat, ok: bool)
    | WFinishing

  /** Where the first call of Close is. */
  datatype Closer = CNone | CWakeReader | CWakeWriter | CRemove | CSendFin | CDone

  /** The receiving half: what `rmu` guards. `got` is history: all bytes taken from `rb`. */
  datatype Rx = Rx(rb: seq<byte>, rerr: ReadError, reader: Reader, got: seq<byte>)

  /** The sending half: what `wmu` guards. History: the bytes put on the wire, and how many
      they were when the first ChannelClose frame was sent. */
  datatype Tx = Tx(window: int, writer: Writer, sent: seq<byte>, finAt: Option<nat>)

  /** Whether the object exists, has been handed to its user, and has its id in the channel
      map; `opening` is the target of an OpenChannel whose frame is not sent yet. */
  datatype Life = Life(made: bool, usable: bool, live: bool, opening: Option<seq<byte>>)

  datatype End = End(life: Life, status: Status, closer: Closer, rx: Rx, tx: Tx)

  const UNMADE := End(Life(false, false, false, None), Open, CNone,
                      Rx([], NoError, RIdle, []), Tx(DEFAULT_SEND_WINDOW, WIdle, [], None))

  /** newChannel by OpenChannel (target given) or by handleNewChannel. */
  function NewEnd(opening: Option<seq<byte>>): End {
    UNMADE.(life := Life(true, false, true, opening))
  }

  datatype ReaderStep = Read(max: nat) | ReadLoop | ReadPark | ReadCredit | ReadDone

  datatype WriterStep =
    | Write(b: seq<byte>) | WriteLoop | WritePark | WriteSend | WriteDone | CloseWrite | SendFin

  datatype ControlStep = SendNew | Close | WakeReader | WakeWriter | Remove | CloseSend | Teardown

  datatype Step = OnRx(r: ReaderStep) | OnTx(w: WriterStep) | OnCtl(c: ControlStep)

  /** The new end, and the frame handed to the wire, if any. */
  datatype Outcome = Outcome(end: End, out: seq<Message>)

  predicate ReadLockFree(rx: Rx) {
    !rx.reader.RParking? && !rx.reader.RCrediting?
  }

  predicate WriteLockFree(tx: Tx) {
    !tx.writer.WParking?
  }

  function PayloadLength(m: Message): nat {
    match m
    case New(t) => 6 + |t|
    case Data(b) => 4 + |b|
    case Fin => 4
    case Credit(_) => 8
  }

  /** WriteFrame succeeds: the connection is up and the payload is within the limit. */
  predicate SendOk(up: bool, m: Message) {
    up && PayloadLength(m) <= MAX_FRAME_PAYLOAD
  }

  function Sent(up: bool, m: Message): seq<Message> {
    if SendOk(up, m) then [m] else []
  }

  function WakeRx(rx: Rx): Rx {
    if rx.reader.RParked? then rx.(reader := RLoop(rx.reader.max)) else rx
  }

  function WakeTx(tx: Tx): Tx {
    if tx.writer.WParked? then tx.(writer := WLoop(tx.writer.rest, tx.writer.total)) else tx
  }

  predicate ReaderEnabled(rx: Rx, usable: bool, step: ReaderStep) {
    match step
    case Read(_) => usable && rx.reader.RIdle?
    case ReadLoop => rx.reader.RLoop?
    case ReadPark => rx.reader.RParking?
    case ReadCredit => rx.reader.RCrediting?
    case ReadDone => rx.reader.RReturned?
  }

  /** The body of Read's loop, under `rmu`. */
  function ReadLoopStep(rx: Rx, closed: bool): Rx
    requires rx.reader.RLoop?
  {
    if rx.rb != [] then
      var n := Min(rx.reader.max, |rx.rb|);
      Rx(rx.rb[n..], rx.rerr, if n > 0 then RCrediting(rx.rb[..n]) else RReturned([], NoError), rx.got + rx.rb[..n])
    else if rx.rerr != NoError then rx.(reader := RReturned([], rx.rerr))
    else if closed then rx.(reader := RReturned([], Eof))
    else rx.(reader := RParking(rx.reader.max))
  }

  function ReaderNext(rx: Rx, closed: bool, step: ReaderStep): Rx
    requires ReaderEnabled(rx, true, step)
  {
    match step
    case Read(max) => rx.(reader := RLoop(max))
    case ReadLoop => ReadLoopStep(rx, closed)
    case ReadPark => rx.(reader := RParked(rx.reader.max))
    case ReadCredit => rx.(reader := RReturned(rx.reader.data, NoError))
    case ReadDone => rx.(reader := RIdle)
  }

  /** sendWindowUpdate: the count goes on the wire as a uint32. */
  function ReaderOut(rx: Rx, step: ReaderStep, up: bool): seq<Message>
    requires ReaderEnabled(rx, true, step)
  {
    if step.ReadCredit? then Sent(up, Credit(|rx.reader.data| % UINT32)) else []
  }

  predicate WriterEnabled(tx: Tx, usable: bool, status: Status, step: WriterStep) {
    match step
    case Write(_) => usable && tx.writer.WIdle?
    case WriteLoop => tx.writer.WLoop?
    case WritePark => tx.writer.WParking?
    case WriteSend => tx.writer.WSending?
    case WriteDone => tx.writer.WReturned?
    case CloseWrite => usable && tx.writer.WIdle? && status == Open
    case SendFin => tx.writer.WFinishing?
  }

  /** The body of Write's loop up to the release of `wmu`. */
  function WriteLoopStep(tx: Tx, status: Status): Tx
    requires tx.writer.WLoop?
  {
    var rest, total := tx.writer.rest, tx.writer.total;
    if rest == [] then tx.(writer := WReturned(total, true))
    else if tx.window <= 0 then
      tx.(writer := if status != Open then WReturned(total, false) else WParking(rest, total))
    else
      var n := Min(|rest|, tx.window);
      tx.(window := tx.window - n, writer := WSending(rest[..n], rest[n..], total))
  }

  /** Sending a ChannelClose frame; the first one fixes `finAt`. */
  function MarkFin(tx: Tx, up: bool): Tx {
    if up && tx.finAt.None? then tx.(finAt := Some(|tx.sent|)) else tx
  }

  function WriteSendStep(tx: Tx, up: bool): Tx
    requires tx.writer.WSending?
  {
    var chunk, rest, total := tx.writer.chunk, tx.writer.rest, tx.writer.total;
    if SendOk(up, Data(chunk)) then tx.(sent := tx.sent + chunk, writer := WLoop(rest, total + |chunk|))
    else tx.(writer := WReturned(total, false))
  }

  function WriterNext(tx: Tx, status: Status, step: WriterStep, up: bool): Tx
    requires WriterEnabled(tx, true, status, step)
  {
    match step
    case Write(b) => tx.(writer := if status != Open then WReturned(0, false) else WLoop(b, 0))
    case WriteLoop => WriteLoopStep(tx, status)
    case WritePark => tx.(writer := WParked(tx.writer.rest, tx.writer.total))
    case WriteSend => WriteSendStep(tx, up)
    case WriteDone => tx.(writer := WIdle)
    case CloseWrite => tx.(writer := WFinishing)
    case SendFin => MarkFin(tx.(writer := WIdle), up)
  }

  function WriterOut(tx: Tx, status: Status, step: WriterStep, up: bool): seq<Message>
    requires WriterEnabled(tx, true, status, step)
  {
    match step
    case WriteSend => Sent(up, Data(tx.writer.chunk))
    case SendFin => Sent(up, Fin)
    case _ => []
  }

  predicate ControlEnabled(e: End, step: ControlStep) {
    match step
    case SendNew => e.life.opening.Some?
    case Close => e.life.usable && e.status != Closed
    case WakeReader => e.closer == CWakeReader && ReadLockFree(e.rx)
    case WakeWriter => e.closer == CWakeWriter && WriteLockFree(e.tx)
    case Remove => e.closer == CRemove
    case CloseSend => e.closer == CSendFin
    case Teardown => e.life.live && ReadLockFree(e.rx)
  }

  function SetError(rx: Rx, err: ReadError): Rx {
    WakeRx(rx.(rerr := err))
  }

  function PushData(rx: Rx, data: seq<byte>): Rx {
    if |rx.rb| + |data| > MAX_RECEIVE_BUFFER then SetError(rx, Overflow)
    else WakeRx(rx.(rb := rx.rb + data))
  }

  function AddSendWindow(tx: Tx, delta: nat): Tx {
    WakeTx(tx.(window := tx.window + delta))
  }

  function ControlNext(e: End, step: ControlStep, up: bool): End
    requires ControlEnabled(e, step)
  {
    match step
    case SendNew =>
      if SendOk(up, New(e.life.opening.value)) then e.(life := e.life.(opening := None, usable := true))
      else e.(life := e.life.(opening := None, live := false))
    case Close => e.(status := Closed, closer := CWakeReader)
    case WakeReader => e.(rx := WakeRx(e.rx), closer := CWakeWriter)
    case WakeWriter => e.(tx := WakeTx(e.tx), closer := CRemove)
    case Remove => e.(life := e.life.(live := false), closer := CSendFin)
    case CloseSend => e.(tx := MarkFin(e.tx, up), closer := CDone)
    case Teardown => e.(rx := SetError(e.rx, Eof), life := e.life.(live := false))
  }

  function ControlOut(e: End, step: ControlStep, up: bool): seq<Message>
    requires ControlEnabled(e, step)
  {
    match step
    case SendNew => Sent(up, New(e.life.opening.value))
    case CloseSend => Sent(up, Fin)
    case _ => []
  }

  predicate Enabled(e: End, step: Step) {
    match step
    case OnRx(r) => ReaderEnabled(e.rx, e.life.usable, r)
    case OnTx(w) => WriterEnabled(e.tx, e.life.usable, e.status, w)
    case OnCtl(c) => ControlEnabled(e, c)
  }

  function Local(e: End, step: Step, up: bool): Outcome
    requires Enabled(e, step)
  {
    match step
    case OnRx(r) =>
      Outcome(e.(rx := ReaderNext(e.rx, e.status == Closed, r)), ReaderOut(e.rx, r, up))
    case OnTx(w) =>
      Outcome(e.(tx := WriterNext(e.tx, e.status, w, up), status := if w.CloseWrite? then WriteClosed else e.status),
              WriterOut(e.tx, e.status, w, up))
    case OnCtl(c) => Outcome(ControlNext(e, c, up), ControlOut(e, c, up))
  }

  /** The read loop can get the lock its handler needs. */
  predicate CanReceive(e: End, m: Message) {
    match m
    case New(_) => false
    case Data(_) => ReadLockFree(e.rx)
    case Fin => ReadLockFree(e.rx)
    case Credit(_) => WriteLockFree(e.tx)
  }

  /** handleChannelData, handleChannelClose and handleWindowUpdate after the map lookup. */
  function Receive(e: End, m: Message): End
    requires CanReceive(e, m)
  {
    match m
    case Data(b) => e.(rx := PushData(e.rx, b))
    case Fin => e.(rx := SetError(e.rx, Eof))
    case Credit(n) => e.(tx := AddSendWindow(e.tx, n))
  }

  /** Bytes deducted from the window and not on the wire yet. */
  function InHand(tx: Tx): seq<byte> {
    if tx.writer.WSending? then tx.writer.chunk else []
  }

  /** Bytes taken from the receive buffer whose credit is not on the wire yet. */
  function Uncredited(rx: Rx): nat {
    if rx.reader.RCrediting? then |rx.reader.data| else 0
  }

  /** No lost wakeup: who is parked, or about to be, has a reason to wait or a wakeup coming. */
  ghost predicate NoLostWakeup(e: End) {
    && (e.rx.reader.RParked? || e.rx.reader.RParking? ==>
          e.rx.rb == [] && e.rx.rerr == NoError && (e.status != Closed || e.closer == CWakeReader))
    && (e.tx.writer.WParked? || e.tx.writer.WParking? ==>
          e.tx.window <= 0 && e.tx.writer.rest != [] && e.status != WriteClosed
          && (e.status != Closed || e.closer == CWakeReader || e.closer == CWakeWriter))
  }

  ghost predicate LifeInv(e: End) {
    && (!e.life.made ==> e.life == UNMADE.life)
    && (!e.life.usable ==> e.rx.reader == RIdle && e.rx.got == [] && e.tx == UNMADE.tx && e.status == Open)
    && (!e.life.made ==> e.rx == UNMADE.rx)
    && (e.life.opening.Some? ==> !e.life.usable)
    && (e.status == Closed <==> e.closer != CNone)
    && (e.closer == CSendFin || e.closer == CDone ==> !e.life.live)
  }

  ghost predicate RxInv(rx: Rx) {
    rx.reader.RCrediting? ==> rx.reader.data != []
  }

  ghost predicate TxInv(tx: Tx, status: Status) {
    && 0 <= tx.window
    && (tx.writer.WSending? ==> tx.writer.chunk != [])
    && (tx.writer.WFinishing? ==> status != Open)
    && (tx.finAt.Some? ==> tx.finAt.value <= |tx.sent| && status != Open)
  }

  ghost predicate EndInv(e: End) {
    NoLostWakeup(e) && LifeInv(e) && RxInv(e.rx) && TxInv(e.tx, e.status)
  }

  lemma ReaderKeepsEndInv(e: End, step: ReaderStep, up: bool)
    requires EndInv(e) && ReaderEnabled(e.rx, e.life.usable, step)
    ensures EndInv(Local(e, OnRx(step), up).end)
  {
  }

  lemma WriterKeepsEndInv(e: End, step: WriterStep, up: bool)
    requires EndInv(e) && WriterEnabled(e.tx, e.life.usable, e.status, step)
    ensures EndInv(Local(e, OnTx(step), up).end)
  {
  }

  lemma ControlKeepsEndInv(e: End, step: ControlStep, up: bool)
    requires EndInv(e) && ControlEnabled(e, step)
    ensures EndInv(Local(e, OnCtl(step), up).end)
  {
  }

  lemma LocalKeepsEndInv(e: End, step: Step, up: bool)
    requires EndInv(e) && Enabled(e, step)
    ensures EndInv(Local(e, step, up).end)
  {
    match step
    case OnRx(r) => ReaderKeepsEndInv(e, r, up);
    case OnTx(w) => WriterKeepsEndInv(e, w, up);
    case OnCtl(c) => ControlKeepsEndInv(e, c, up);
  }

  lemma ReceiveKeepsEndInv(e: End, m: Message)
    requires EndInv(e) && e.life.made && CanReceive(e, m)
    requires m.Credit? && m.delta > 0 ==> e.life.usable
    ensures EndInv(Receive(e, m))
  {
  }
}
