/** One direction of a channel: a sending end, the frames on their way to a receiving end, and
    the credit coming back. What holds of a direction in every state, and what one step of
    either end, or of the wire, does to it. */
module Direction {
  import opened Basics
  import opened ChannelEnd

  function DataOf(ms: seq<Message>): seq<byte> {
    if ms == [] then [] else (if ms[0].Data? then ms[0].bytes else []) + DataOf(ms[1..])
  }

  function CreditOf(ms: seq<Message>): nat {
    if ms == [] then 0 else (if ms[0].Credit? then ms[0].delta else 0) + CreditOf(ms[1..])
  }

  /** The data ahead of the first ChannelClose frame. */
  function BeforeFin(ms: seq<Message>): seq<byte> {
    if ms == [] || ms[0].Fin? then []
    else (if ms[0].Data? then ms[0].bytes else []) + BeforeFin(ms[1..])
  }

  lemma {:induction false} DataAppended(ms: seq<Message>, m: Message)
    ensures DataOf(ms + [m]) == DataOf(ms) + DataOf([m])
  {
    var more := ms + [m];
    if ms == [] {
      assert more == [m];
    } else {
      assert more[1..] == ms[1..] + [m] && more[0] == ms[0];
      DataAppended(ms[1..], m);
      Pieces(if ms[0].Data? then ms[0].bytes else [], DataOf(ms[1..]), DataOf([m]));
    }
  }

  lemma {:induction false} CreditAppended(ms: seq<Message>, m: Message)
    ensures CreditOf(ms + [m]) == CreditOf(ms) + CreditOf([m])
  {
    if ms == [] {
      assert ms + [m] == [m];
    } else {
      assert (ms + [m])[1..] == ms[1..] + [m];
      CreditAppended(ms[1..], m);
    }
  }

  lemma {:induction false} FinAppended(ms: seq<Message>, m: Message)
    ensures BeforeFin(ms + [m]) == if Fin in ms then BeforeFin(ms) else BeforeFin(ms) + BeforeFin([m])
  {
    var more := ms + [m];
    if ms == [] {
      assert more == [m];
    } else {
      assert more[1..] == ms[1..] + [m] && more[0] == ms[0];
      FinAppended(ms[1..], m);
      Pieces(if ms[0].Data? then ms[0].bytes else [], BeforeFin(ms[1..]), BeforeFin([m]));
    }
  }

  lemma {:induction false} NoFin(ms: seq<Message>)
    ensures Fin !in ms ==> BeforeFin(ms) == DataOf(ms)
  {
    if ms != [] {
      NoFin(ms[1..]);
    }
  }

  lemma Appended(ms: seq<Message>, m: Message)
    ensures DataOf(ms + [m]) == DataOf(ms) + DataOf([m])
    ensures CreditOf(ms + [m]) == CreditOf(ms) + CreditOf([m])
    ensures BeforeFin(ms + [m]) == if Fin in ms then BeforeFin(ms) else BeforeFin(ms) + BeforeFin([m])
    ensures Fin !in ms ==> BeforeFin(ms) == DataOf(ms)
  {
    hide DataOf, CreditOf, BeforeFin;
    DataAppended(ms, m);
    CreditAppended(ms, m);
    FinAppended(ms, m);
    NoFin(ms);
  }

  /** `s` sends to `r`. `fwd` is every frame from `s` not handled yet, oldest first; when `held`,
      the read loop of `r` has already looked up the channel for `fwd[0]`. `back` is the same
      for the frames from `r`. `closing` says that `r`'s control connection is being closed. */
  datatype Dir = Dir(s: End, r: End, fwd: seq<Message>, held: bool, back: seq<Message>, up: bool, closing: bool)

  /** Both ends are in their channel maps, or still to be made, and the connection is up. */
  predicate Whole(d: Dir) {
    d.up && (d.s.life.made ==> d.s.life.live) && (d.r.life.made ==> d.r.life.live)
  }

  function TotalCredit(d: Dir): int {
    d.s.tx.window + |InHand(d.s.tx)| + |DataOf(d.fwd)| + |d.r.rx.rb| + Uncredited(d.r.rx) + CreditOf(d.back)
  }

  /** Credit is conserved while both ends hold the channel, and never created afterwards. */
  ghost predicate CreditInv(d: Dir) {
    && 0 <= d.s.tx.window
    && TotalCredit(d) <= DEFAULT_SEND_WINDOW
    && (Whole(d) ==> TotalCredit(d) == DEFAULT_SEND_WINDOW)
  }

  predicate Receiving(r: End) {
    r.life.live || !r.life.made
  }

  /** What the receiving end has taken in, in order. */
  function TakenIn(r: End): seq<byte> {
    r.rx.got + r.rx.rb
  }

  /** Exactly what was sent arrives, in order; after the receiver left its map, a prefix. */
  ghost predicate DeliveryInv(d: Dir) {
    && (Receiving(d.r) ==> TakenIn(d.r) + DataOf(d.fwd) == d.s.tx.sent)
    && TakenIn(d.r) <= d.s.tx.sent
    && (d.held ==> d.fwd != [] && TakenIn(d.r) + DataOf([d.fwd[0]]) <= d.s.tx.sent)
  }

  /** End of file at the receiver means the sender's first close, with all before it taken in,
      unless the receiver closed the channel or its connection. */
  ghost predicate FinInv(d: Dir) {
    var finAt := d.s.tx.finAt;
    && (Fin in d.fwd ==> finAt.Some?)
    && (finAt.Some? ==> finAt.value <= |d.s.tx.sent|)
    && (Receiving(d.r) && d.r.rx.rerr == NoError && finAt.Some? ==>
          Fin in d.fwd && TakenIn(d.r) + BeforeFin(d.fwd) == d.s.tx.sent[..finAt.value])
    && (d.r.rx.rerr == Eof ==>
          Excused(d) || (finAt.Some? && finAt.value <= |TakenIn(d.r)|))
    && (d.r.life.made && !d.r.life.live ==> Excused(d))
    && d.r.rx.rerr != Overflow
  }

  predicate Excused(d: Dir) {
    d.closing || d.r.status == Closed || !d.up
  }

  ghost predicate DirInv(d: Dir) {
    CreditInv(d) && DeliveryInv(d) && FinInv(d)
  }

  /** What a step of an end, putting `out` on the wire, does to the quantities above. */
  ghost predicate Accounts(e: End, e': End, out: seq<Message>, up: bool) {
    && |out| <= 1
    && (out != [] ==> up)
    && 0 <= e'.tx.window
    && e'.tx.window + |InHand(e'.tx)| + |DataOf(out)| <= e.tx.window + |InHand(e.tx)|
    && (up ==> e'.tx.window + |InHand(e'.tx)| + |DataOf(out)| == e.tx.window + |InHand(e.tx)|)
    && |e'.rx.rb| + Uncredited(e'.rx) + CreditOf(out) <= |e.rx.rb| + Uncredited(e.rx)
    && (up ==> |e'.rx.rb| + Uncredited(e'.rx) + CreditOf(out) == |e.rx.rb| + Uncredited(e.rx))
    && e'.tx.sent == e.tx.sent + DataOf(out)
    && e'.tx.finAt == (if e.tx.finAt.None? && Fin in out then Some(|e.tx.sent|) else e.tx.finAt)
    && TakenIn(e') == TakenIn(e)
  }

  /** What a step may change of an end's place in the world. */
  ghost predicate Ages(e: End, e': End, up: bool, closing: bool) {
    && e'.life.made == e.life.made
    && (e'.life.live ==> e.life.live)
    && (e.status == Closed ==> e'.status == Closed)
    && (e.life.live && !e'.life.live ==> closing || e'.status == Closed || !up)
    && (e'.rx.rerr == e.rx.rerr || (e'.rx.rerr == Eof && closing))
  }

  /** No frame of this end is over the size limit. */
  predicate Sized(e: End) {
    && |InHand(e.tx)| <= DEFAULT_SEND_WINDOW
    && Uncredited(e.rx) <= DEFAULT_SEND_WINDOW
    && (e.life.opening.Some? ==> PayloadLength(New(e.life.opening.value)) <= MAX_FRAME_PAYLOAD)
  }

  lemma ReaderAccounts(e: End, step: ReaderStep, up: bool)
    requires EndInv(e) && Sized(e) && ReaderEnabled(e.rx, e.life.usable, step)
    ensures var o := Local(e, OnRx(step), up); Accounts(e, o.end, o.out, up)
  {
  }

  lemma WriterAccounts(e: End, step: WriterStep, up: bool)
    requires EndInv(e) && Sized(e) && WriterEnabled(e.tx, e.life.usable, e.status, step)
    ensures var o := Local(e, OnTx(step), up); Accounts(e, o.end, o.out, up)
  {
  }

  lemma ControlAccounts(e: End, step: ControlStep, up: bool)
    requires EndInv(e) && Sized(e) && ControlEnabled(e, step)
    ensures var o := Local(e, OnCtl(step), up); Accounts(e, o.end, o.out, up)
  {
  }

  lemma LocalAccounts(e: End, step: Step, up: bool)
    requires EndInv(e) && Sized(e) && Enabled(e, step)
    ensures var o := Local(e, step, up); Accounts(e, o.end, o.out, up)
  {
    match step
    case OnRx(r) => ReaderAccounts(e, r, up);
    case OnTx(w) => WriterAccounts(e, w, up);
    case OnCtl(c) => ControlAccounts(e, c, up);
  }

  lemma LocalAges(e: End, step: Step, up: bool, closing: bool)
    requires EndInv(e) && Enabled(e, step)
    requires step == OnCtl(Teardown) ==> closing
    requires Sized(e)
    ensures Ages(e, Local(e, step, up).end, up, closing)
  {
  }

  lemma SenderCredit(d: Dir, s: End, out: seq<Message>)
    requires CreditInv(d) && Accounts(d.s, s, out, d.up) && s.life.made == d.s.life.made
    requires s.life.live ==> d.s.life.live
    requires DataOf(d.fwd + out) == DataOf(d.fwd) + DataOf(out)
    ensures CreditInv(d.(s := s, fwd := d.fwd + out))
  {
    hide DataOf, CreditOf, InHand;
  }

  lemma SenderDelivery(d: Dir, s: End, out: seq<Message>)
    requires DeliveryInv(d) && s.tx.sent == d.s.tx.sent + DataOf(out)
    requires DataOf(d.fwd + out) == DataOf(d.fwd) + DataOf(out)
    ensures DeliveryInv(d.(s := s, fwd := d.fwd + out))
  {
    hide DataOf;
    Pieces(TakenIn(d.r), DataOf(d.fwd), DataOf(out));
    PrefixGrows(TakenIn(d.r), d.s.tx.sent, DataOf(out));
    if d.held {
      PrefixGrows(TakenIn(d.r) + DataOf([d.fwd[0]]), d.s.tx.sent, DataOf(out));
    }
  }

  lemma PrefixGrows<T>(a: seq<T>, b: seq<T>, c: seq<T>)
    requires a <= b
    ensures a <= b + c
  {
  }

  lemma SenderFin(d: Dir, s: End, out: seq<Message>)
    requires FinInv(d) && DeliveryInv(d) && |out| <= 1
    requires s.tx.sent == d.s.tx.sent + DataOf(out)
    requires s.tx.finAt == (if d.s.tx.finAt.None? && Fin in out then Some(|d.s.tx.sent|) else d.s.tx.finAt)
    requires BeforeFin(d.fwd + out) == if Fin in d.fwd then BeforeFin(d.fwd) else BeforeFin(d.fwd) + BeforeFin(out)
    requires Fin !in d.fwd ==> BeforeFin(d.fwd) == DataOf(d.fwd)
    requires Fin in out ==> DataOf(out) == [] && BeforeFin(out) == []
    ensures FinInv(d.(s := s, fwd := d.fwd + out))
  {
    hide DataOf, BeforeFin, TakenIn;
    assert Fin in d.fwd + out <==> Fin in d.fwd || Fin in out;
    var sent, finAt := d.s.tx.sent, d.s.tx.finAt;
    if finAt.Some? && finAt.value <= |sent| {
      Rejoined(sent, finAt.value, |sent|);
      assert (sent + DataOf(out))[..finAt.value] == sent[..finAt.value];
    }
    assert BeforeFin(d.fwd) + [] == BeforeFin(d.fwd) && sent + [] == sent && sent[..|sent|] == sent;
  }

  lemma FinAlone(out: seq<Message>)
    requires |out| <= 1
    ensures Fin in out ==> DataOf(out) == [] && BeforeFin(out) == []
    ensures out == [] ==> DataOf(out) == [] && CreditOf(out) == 0 && BeforeFin(out) == []
  {
  }

  /** What `Appended` says of at most one more frame. */
  lemma AtMostOneMore(ms: seq<Message>, out: seq<Message>)
    requires |out| <= 1
    ensures DataOf(ms + out) == DataOf(ms) + DataOf(out) && CreditOf(ms + out) == CreditOf(ms) + CreditOf(out)
    ensures BeforeFin(ms + out) == if Fin in ms then BeforeFin(ms) else BeforeFin(ms) + BeforeFin(out)
    ensures Fin !in ms ==> BeforeFin(ms) == DataOf(ms)
  {
    FinAlone(out);
    hide DataOf, CreditOf, BeforeFin;
    if out == [] {
      assert ms + out == ms;
      NoFin(ms);
    } else {
      assert out == [out[0]];
      Appended(ms, out[0]);
    }
  }

  lemma SenderStep(d: Dir, s: End, out: seq<Message>)
    requires DirInv(d) && Accounts(d.s, s, out, d.up) && s.life.made == d.s.life.made
    requires s.life.live ==> d.s.life.live
    ensures DirInv(d.(s := s, fwd := d.fwd + out))
  {
    AtMostOneMore(d.fwd, out);
    FinAlone(out);
    hide CreditInv, DeliveryInv, FinInv, DataOf, CreditOf, BeforeFin, TakenIn, InHand, Uncredited;
    SenderCredit(d, s, out);
    SenderDelivery(d, s, out);
    SenderFin(d, s, out);
  }

  lemma ReceiverStep(d: Dir, r: End, out: seq<Message>)
    requires DirInv(d) && Accounts(d.r, r, out, d.up) && Ages(d.r, r, d.up, d.closing)
    ensures DirInv(d.(r := r, back := d.back + out))
  {
    AtMostOneMore(d.back, out);
    hide DataOf, CreditOf, BeforeFin, InHand;
    assert CreditInv(d.(r := r, back := d.back + out)) by { hide DeliveryInv, FinInv; }
    hide CreditInv, Uncredited;
    assert DeliveryInv(d.(r := r, back := d.back + out)) by { hide FinInv; }
  }

  function Handled(d: Dir): Dir
    requires d.fwd != [] && CanReceive(d.r, d.fwd[0])
  {
    d.(r := Receive(d.r, d.fwd[0]), fwd := d.fwd[1..], held := false)
  }

  lemma ReceiveDataStep(d: Dir)
    requires DirInv(d) && d.fwd != [] && d.held && d.fwd[0].Data? && CanReceive(d.r, d.fwd[0])
    ensures DirInv(Handled(d))
    ensures |d.r.rx.rb| + |d.fwd[0].bytes| <= DEFAULT_SEND_WINDOW
  {
    var b := d.fwd[0].bytes;
    assert DataOf([d.fwd[0]]) == b;
    assert TakenIn(Handled(d).r) == TakenIn(d.r) + b;
    assert TakenIn(d.r) + DataOf(d.fwd) == TakenIn(d.r) + b + DataOf(d.fwd[1..]);
    assert TakenIn(d.r) + BeforeFin(d.fwd) == TakenIn(d.r) + b + BeforeFin(d.fwd[1..]);
  }

  lemma ReceiveFinStep(d: Dir)
    requires DirInv(d) && d.fwd != [] && d.fwd[0].Fin? && d.r.life.made && CanReceive(d.r, d.fwd[0])
    ensures DirInv(Handled(d))
  {
  }

  lemma ReceiveCreditStep(d: Dir)
    requires DirInv(d) && d.fwd != [] && d.fwd[0].Credit? && CanReceive(d.r, d.fwd[0])
    ensures DirInv(Handled(d))
  {
  }

  /** The read loop of `r` handles the frame it looked up. */
  lemma ReceiveStep(d: Dir)
    requires DirInv(d) && d.fwd != [] && d.held && d.r.life.made && CanReceive(d.r, d.fwd[0])
    ensures DirInv(Handled(d))
  {
    match d.fwd[0]
    case Data(_) => ReceiveDataStep(d);
    case Fin => ReceiveFinStep(d);
    case Credit(_) => ReceiveCreditStep(d);
  }

  /** The lookup finds no channel and the frame is dropped. */
  lemma DropStep(d: Dir)
    requires DirInv(d) && d.fwd != [] && !d.held && d.r.life.made && !d.r.life.live
    ensures DirInv(d.(fwd := d.fwd[1..]))
  {
  }

  /** The lookup finds the channel. */
  lemma HoldStep(d: Dir)
    requires DirInv(d) && d.fwd != [] && !d.held && d.r.life.live
    ensures DirInv(d.(held := true))
  {
    var m := d.fwd[0];
    assert DataOf([m]) == if m.Data? then m.bytes else [];
    assert TakenIn(d.r) + DataOf(d.fwd) == TakenIn(d.r) + DataOf([m]) + DataOf(d.fwd[1..]);
  }

  /** The read loop of `s` handles a frame from `r`. */
  lemma ReceiveBackStep(d: Dir)
    requires DirInv(d) && d.back != [] && CanReceive(d.s, d.back[0])
    ensures DirInv(d.(s := Receive(d.s, d.back[0]), back := d.back[1..]))
  {
  }

  lemma DropBackStep(d: Dir)
    requires DirInv(d) && d.back != [] && d.s.life.made && !d.s.life.live
    ensures DirInv(d.(back := d.back[1..]))
  {
  }
}
