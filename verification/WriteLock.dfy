/** Many goroutines calling sendFrame on one connection (relay/ctrlconn.go:157-169): the bytes
    are written in several pieces, and `wmu` keeps the frames whole. */
module WriteLock {
  import opened Basics
  import opened Frames

  /** The holder of `wmu`, its frame, and how many bytes of it are on the wire. */
  datatype Holder = Holder(writer: nat, frame: Frame, written: nat)

  /** `waiting[w]` are the frames writer `w` still wants to send. `order` is history: the
      writers and frames of the finished calls, in the order in which they had the lock. */
  datatype Writers = Writers(waiting: map<nat, seq<Frame>>, holder: Option<Holder>, wire: seq<byte>,
                             order: seq<(nat, Frame)>, up: bool)

  datatype WriteStep = Acquire(writer: nat) | Push(n: nat) | Release | Break

  predicate CanWrite(s: Writers, step: WriteStep) {
    match step
    case Acquire(w) => s.up && s.holder.None? && w in s.waiting && s.waiting[w] != []
    case Push(n) => s.up && s.holder.Some? && 0 < n && Legal(s.holder.value.frame)
                    && s.holder.value.written + n <= |Encode(s.holder.value.frame)|
    case Release => s.up && s.holder.Some?
                    && (Legal(s.holder.value.frame) ==> s.holder.value.written == |Encode(s.holder.value.frame)|)
    case Break => true
  }

  function WriteNext(s: Writers, step: WriteStep): Writers
    requires CanWrite(s, step)
  {
    match step
    case Acquire(w) => s.(waiting := s.waiting[w := s.waiting[w][1..]], holder := Some(Holder(w, s.waiting[w][0], 0)))
    case Push(n) =>
      var h := s.holder.value;
      s.(holder := Some(h.(written := h.written + n)), wire := s.wire + Encode(h.frame)[h.written..h.written + n])
    case Release =>
      var h := s.holder.value;
      s.(holder := None, order := if Legal(h.frame) then s.order + [(h.writer, h.frame)] else s.order)
    case Break => s.(up := false)
  }

  function FramesIn(order: seq<(nat, Frame)>): seq<Frame> {
    if order == [] then [] else [order[0].1] + FramesIn(order[1..])
  }

  /** The part of the holder's frame that is on the wire. */
  function Partial(s: Writers): seq<byte> {
    if s.holder.Some? && Legal(s.holder.value.frame) && s.holder.value.written <= |Encode(s.holder.value.frame)|
    then Encode(s.holder.value.frame)[..s.holder.value.written] else []
  }

  ghost predicate AllLegal(fs: seq<Frame>) {
    forall f :: f in fs ==> Legal(f)
  }

  ghost predicate WireInv(s: Writers) {
    && AllLegal(FramesIn(s.order))
    && s.wire == EncodeAll(FramesIn(s.order)) + Partial(s)
    && (s.holder.Some? && Legal(s.holder.value.frame) ==> s.holder.value.written <= |Encode(s.holder.value.frame)|)
    && (s.holder.Some? && !Legal(s.holder.value.frame) ==> s.holder.value.written == 0)
  }

  lemma {:induction false} FramesInAppend(order: seq<(nat, Frame)>, w: nat, f: Frame)
    ensures FramesIn(order + [(w, f)]) == FramesIn(order) + [f]
  {
    if order != [] {
      assert (order + [(w, f)])[1..] == order[1..] + [(w, f)];
      FramesInAppend(order[1..], w, f);
    } else {
      assert order + [(w, f)] == [(w, f)];
    }
  }

  lemma ReleaseKeepsInv(s: Writers)
    requires WireInv(s) && CanWrite(s, Release)
    ensures WireInv(WriteNext(s, Release))
  {
    hide Encode, FramesIn, EncodeAll;
    var h := s.holder.value;
    if Legal(h.frame) {
      FramesInAppend(s.order, h.writer, h.frame);
      EncodeAllAppend(FramesIn(s.order), h.frame);
      assert Encode(h.frame)[..h.written] == Encode(h.frame);
    }
  }

  lemma WriteKeepsInv(s: Writers, step: WriteStep)
    requires WireInv(s) && CanWrite(s, step)
    ensures WireInv(WriteNext(s, step))
  {
    hide Encode;
    match step
    case Acquire(_) =>
    case Push(n) =>
      var h := s.holder.value;
      hide FramesIn, EncodeAll, AllLegal;
      Rejoined(Encode(h.frame), h.written, h.written + n);
      Pieces(EncodeAll(FramesIn(s.order)), Partial(s), Encode(h.frame)[h.written..h.written + n]);
    case Release => ReleaseKeepsInv(s);
    case Break =>
  }

  ghost predicate IsWriteRun(s: Writers, steps: seq<WriteStep>, s': Writers)
    decreases |steps|
  {
    if steps == [] then s == s'
    else CanWrite(s, steps[0]) && IsWriteRun(WriteNext(s, steps[0]), steps[1..], s')
  }

  lemma {:induction false} WriteRunKeepsInv(s: Writers, steps: seq<WriteStep>, s': Writers)
    requires WireInv(s) && IsWriteRun(s, steps, s')
    ensures WireInv(s')
    decreases |steps|
  {
    hide WireInv, CanWrite, WriteNext;
    if steps != [] {
      WriteKeepsInv(s, steps[0]);
      WriteRunKeepsInv(WriteNext(s, steps[0]), steps[1..], s');
    }
  }

  function Idle(waiting: map<nat, seq<Frame>>): Writers {
    Writers(waiting, None, [], [], true)
  }

  /** For every interleaving of writers and wherever it stops: the wire holds the whole frames
      of the finished calls in lock order, then at most a part of the holder's frame; and the
      peer's read loop gets exactly those frames, plus the holder's when all of it is there. */
  lemma WireIsWholeFrames(waiting: map<nat, seq<Frame>>, steps: seq<WriteStep>, s: Writers)
    requires IsWriteRun(Idle(waiting), steps, s)
    ensures AllLegal(FramesIn(s.order)) && s.wire == EncodeAll(FramesIn(s.order)) + Partial(s)
    ensures var whole := s.holder.Some? && Legal(s.holder.value.frame)
                         && s.holder.value.written == |Encode(s.holder.value.frame)|;
            DecodeAll(s.wire).0 == FramesIn(s.order) + if whole then [s.holder.value.frame] else []
  {
    hide Encode, Decode, DecodeAll;
    WriteRunKeepsInv(Idle(waiting), steps, s);
    var fs := FramesIn(s.order);
    var none := Frame(0, []);
    EncodeNonEmpty(none);
    if s.holder.Some? && Legal(s.holder.value.frame) {
      var h := s.holder.value;
      if h.written == |Encode(h.frame)| {
        EncodeAllAppend(fs, h.frame);
        StreamIsDecoded(fs + [h.frame], none, 0);
        assert Encode(h.frame)[..h.written] == Encode(h.frame);
        assert s.wire == EncodeAll(fs + [h.frame]) + Encode(none)[..0];
      } else {
        StreamIsDecoded(fs, h.frame, h.written);
      }
    } else {
      StreamIsDecoded(fs, none, 0);
      assert Partial(s) == Encode(none)[..0];
    }
  }

  lemma EncodeNonEmpty(f: Frame)
    requires Legal(f)
    ensures |Encode(f)| > 0
  {
  }

  /** The frames of one writer, in the order they were sent. */
  function SentBy(order: seq<(nat, Frame)>, w: nat): seq<Frame> {
    if order == [] then [] else (if order[0].0 == w then [order[0].1] else []) + SentBy(order[1..], w)
  }

  lemma {:induction false} SentByAppend(order: seq<(nat, Frame)>, v: nat, f: Frame, w: nat)
    ensures SentBy(order + [(v, f)], w) == SentBy(order, w) + if v == w then [f] else []
  {
    var more := order + [(v, f)];
    if order == [] {
      assert more == [(v, f)];
    } else {
      assert more[1..] == order[1..] + [(v, f)] && more[0] == order[0];
      SentByAppend(order[1..], v, f, w);
      var first := if order[0].0 == w then [order[0].1] else [];
      Pieces(first, SentBy(order[1..], w), if v == w then [f] else []);
    }
  }

  function LegalOf(fs: seq<Frame>): seq<Frame> {
    if fs == [] then [] else (if Legal(fs[0]) then [fs[0]] else []) + LegalOf(fs[1..])
  }

  function Outstanding(s: Writers, w: nat): seq<Frame> {
    (if s.holder.Some? && s.holder.value.writer == w && Legal(s.holder.value.frame) then [s.holder.value.frame] else [])
    + if w in s.waiting then LegalOf(s.waiting[w]) else []
  }

  lemma AcquireKeepsOrder(s: Writers, v: nat, w: nat)
    requires CanWrite(s, Acquire(v))
    ensures Outstanding(WriteNext(s, Acquire(v)), w) == Outstanding(s, w)
  {
  }

  lemma ReleaseKeepsOrder(s: Writers, w: nat)
    requires CanWrite(s, Release)
    ensures SentBy(WriteNext(s, Release).order, w) + Outstanding(WriteNext(s, Release), w) ==
              SentBy(s.order, w) + Outstanding(s, w)
  {
    hide SentBy, LegalOf, Encode;
    var h := s.holder.value;
    SentByAppend(s.order, h.writer, h.frame, w);
    var own := if h.writer == w && Legal(h.frame) then [h.frame] else [];
    Pieces(SentBy(s.order, w), own, if w in s.waiting then LegalOf(s.waiting[w]) else []);
  }

  lemma StepKeepsOrder(s: Writers, step: WriteStep, w: nat)
    requires CanWrite(s, step)
    ensures SentBy(WriteNext(s, step).order, w) + Outstanding(WriteNext(s, step), w) == SentBy(s.order, w) + Outstanding(s, w)
  {
    hide Encode, SentBy, LegalOf;
    match step
    case Acquire(v) => AcquireKeepsOrder(s, v, w);
    case Release => ReleaseKeepsOrder(s, w);
    case _ =>
  }

  /** No writer's frames are lost, repeated or reordered among themselves. */
  lemma {:induction false} WriterOrderKept(s: Writers, steps: seq<WriteStep>, s': Writers, w: nat)
    requires IsWriteRun(s, steps, s')
    ensures SentBy(s'.order, w) + Outstanding(s', w) == SentBy(s.order, w) + Outstanding(s, w)
    decreases |steps|
  {
    hide CanWrite, WriteNext, SentBy, Outstanding;
    if steps != [] {
      StepKeepsOrder(s, steps[0], w);
      WriterOrderKept(WriteNext(s, steps[0]), steps[1..], s', w);
    }
  }

  /** Once the connection has broken, nothing more is written and no more calls succeed. */
  lemma {:induction false} NothingAfterBreak(s: Writers, steps: seq<WriteStep>, s': Writers)
    requires IsWriteRun(s, steps, s') && !s.up
    ensures s'.wire == s.wire && s'.order == s.order
    decreases |steps|
  {
    hide Encode;
    if steps != [] {
      NothingAfterBreak(WriteNext(s, steps[0]), steps[1..], s');
    }
  }
}
