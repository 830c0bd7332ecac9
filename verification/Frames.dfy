/** The length-prefixed frames of the control connection (relay/ctrlframe.go). */
module Frames {
  import opened Basics
  import opened Bytes

  const MAX_PAYLOAD := 0x100_0000

  datatype Frame = Frame(kind: byte, payload: seq<byte>)

  datatype FrameError = BadHeader(cause: ReadFailure) | TooLarge | BadPayload(cause: ReadFailure)

  predicate Legal(f: Frame) {
    |f.payload| <= MAX_PAYLOAD
  }

  function Encode(f: Frame): seq<byte>
    requires Legal(f)
  {
    Put32(|f.payload|) + [f.kind] + f.payload
  }

  /** The first frame of a byte stream, and the bytes after it; or why there is none, and what
      the reader has left unread. */
  datatype Decoded = Got(frame: Frame, rest: seq<byte>) | Failed(error: FrameError, rest: seq<byte>)

  function Cause(available: seq<byte>): ReadFailure {
    if available == [] then EndOfFile else UnexpectedEof
  }

  function Decode(s: seq<byte>): Decoded {
    if |s| < 5 then Failed(BadHeader(Cause(s)), [])
    else
      var n := Get32(s[..4]);
      if n > MAX_PAYLOAD then Failed(TooLarge, s[5..])
      else if |s| - 5 < n then Failed(BadPayload(Cause(s[5..])), [])
      else Got(Frame(s[4], s[5..5 + n]), s[5 + n..])
  }

  /** The format byte by byte. */
  lemma FrameFormat(f: Frame)
    requires Legal(f)
    ensures var s, n := Encode(f), |f.payload|;
            && |s| == 5 + n && n <= 16777216
            && s[0] == n / 0x100_0000 && s[1] == n / 0x1_0000 % 0x100 && s[2] == n / 0x100 % 0x100 && s[3] == n % 0x100
            && s[4] == f.kind && s[5..] == f.payload
  {
    Put32IsBig(|f.payload|);
    hide Put32;
    Pieces(Big32(|f.payload|), [f.kind], f.payload);
  }

  /** A whole frame is in front of `s`. */
  predicate HasFrame(s: seq<byte>) {
    |s| >= 5 && U32(s, 0) <= 16777216 && |s| >= 5 + U32(s, 0)
  }

  lemma HeaderLength(s: seq<byte>)
    ensures |s| >= 5 ==> Get32(s[..4]) == U32(s, 0)
  {
    if |s| >= 5 {
      Get32IsU32(s, 0);
      assert s[..4] == s[0..4];
    }
  }

  method ReadFrame(c: Conn) returns (r: Result<Frame, FrameError>)
    modifies c`input
    ensures match Decode(old(c.input))
            case Got(f, rest) => r == Ok(f) && c.input == rest
            case Failed(e, rest) => r == Err(e) && c.input == rest
    ensures var s := old(c.input);
            && (r.Ok? <==> HasFrame(s))
            && (r.Ok? ==> r.value == Frame(s[4], s[5..5 + U32(s, 0)]) && c.input == s[5 + U32(s, 0)..])
            && (r == Err(BadHeader(EndOfFile)) <==> s == [])
            && (r == Err(BadHeader(UnexpectedEof)) <==> 0 < |s| < 5)
            && (r == Err(TooLarge) <==> |s| >= 5 && U32(s, 0) > 16777216)
            && (r == Err(BadPayload(EndOfFile)) <==> |s| == 5 && 0 < U32(s, 0) <= 16777216)
            && (r == Err(BadPayload(UnexpectedEof)) <==> 5 < |s| < 5 + U32(s, 0) && U32(s, 0) <= 16777216)
  {
    HeaderLength(c.input);
    hide Get32, U32;
    var header := new byte[5];
    var failure := c.ReadFull(header);
    if failure.Some? {
      return Err(BadHeader(failure.value));
    }
    assert header[..4] == old(c.input)[..4];
    var length := Get32(header[..4]);
    if length > MAX_PAYLOAD {
      return Err(TooLarge);
    }
    var payload := new byte[length];
    if length > 0 {
      failure := c.ReadFull(payload);
      if failure.Some? {
        return Err(BadPayload(failure.value));
      }
    }
    assert payload[..] == old(c.input)[5..5 + length];
    r := Ok(Frame(header[4], payload[..]));
  }

  method WriteFrame(c: Conn, kind: byte, payload: seq<byte>) returns (ok: bool)
    modifies c`output
    ensures ok == (c.up && Legal(Frame(kind, payload)))
    ensures c.output == old(c.output) + if ok then Encode(Frame(kind, payload)) else []
    ensures ok == (c.up && |payload| <= 16777216)
    ensures ok ==> c.output == old(c.output) + (Big32(|payload|) + [kind] + payload)
  {
    if |payload| > MAX_PAYLOAD {
      return false;
    }
    Put32IsBig(|payload|);
    var header := Put32(|payload|) + [kind];
    Pieces(c.output, header, payload);
    hide Put32, Big32;
    ok := c.Write(header);
    if ok && |payload| > 0 {
      ok := c.Write(payload);
    }
  }

  /** Reading back what was written, with whatever follows it left unread. */
  lemma DecodeEncoded(f: Frame, rest: seq<byte>)
    requires Legal(f)
    ensures Decode(Encode(f) + rest) == Got(f, rest)
  {
    var n := |f.payload|;
    RoundTrip32(n);
    hide Put32, Get32;
    Pieces(Put32(n), [f.kind], f.payload + rest);
    Pieces(Put32(n) + [f.kind], f.payload, rest);
  }

  /** Only an encoded frame is read as one. */
  lemma EncodeDecoded(s: seq<byte>)
    requires Decode(s).Got?
    ensures Legal(Decode(s).frame) && s == Encode(Decode(s).frame) + Decode(s).rest
  {
    BytesOf32(s[..4]);
    hide Put32, Get32;
    Rejoined(s, 4, 5);
    Rejoined(s, 5, 5 + Get32(s[..4]));
  }

  function EncodeAll(fs: seq<Frame>): seq<byte>
    requires forall f :: f in fs ==> Legal(f)
  {
    if fs == [] then [] else Encode(fs[0]) + EncodeAll(fs[1..])
  }

  /** The frames the read loop gets out of a byte stream before it fails. */
  function DecodeAll(s: seq<byte>): (r: (seq<Frame>, FrameError))
    ensures forall f :: f in r.0 ==> Legal(f)
    decreases |s|
  {
    match Decode(s)
    case Failed(e, _) => ([], e)
    case Got(f, rest) => var r := DecodeAll(rest); ([f] + r.0, r.1)
  }

  lemma PartialFails(f: Frame, k: nat)
    requires Legal(f) && k < |Encode(f)|
    ensures Decode(Encode(f)[..k]).Failed? && Decode(Encode(f)[..k]).error != TooLarge
  {
    var s := Encode(f)[..k];
    RoundTrip32(|f.payload|);
    if k >= 5 {
      assert s[..4] == Put32(|f.payload|);
    }
  }

  lemma DecodeAllStep(f: Frame, rest: seq<byte>)
    requires Legal(f)
    ensures DecodeAll(Encode(f) + rest).0 == [f] + DecodeAll(rest).0
  {
    hide Encode, Decode;
    DecodeEncoded(f, rest);
  }

  /** A stream of whole frames and then part of one more is read as exactly the whole frames. */
  lemma {:induction false} StreamIsDecoded(fs: seq<Frame>, last: Frame, k: nat)
    requires (forall f :: f in fs ==> Legal(f)) && Legal(last) && k < |Encode(last)|
    ensures DecodeAll(EncodeAll(fs) + Encode(last)[..k]).0 == fs
  {
    hide Encode, Decode;
    var tail := Encode(last)[..k];
    if fs == [] {
      PartialFails(last, k);
      assert EncodeAll(fs) + tail == tail;
    } else {
      hide DecodeAll;
      StreamIsDecoded(fs[1..], last, k);
      DecodeAllStep(fs[0], EncodeAll(fs[1..]) + tail);
      assert EncodeAll(fs) + tail == Encode(fs[0]) + (EncodeAll(fs[1..]) + tail);
    }
  }

  lemma {:induction false} EncodeAllAppend(fs: seq<Frame>, f: Frame)
    requires (forall g :: g in fs ==> Legal(g)) && Legal(f)
    ensures EncodeAll(fs + [f]) == EncodeAll(fs) + Encode(f)
  {
    if fs == [] {
      assert fs + [f] == [f];
    } else {
      assert (fs + [f])[1..] == fs[1..] + [f];
      EncodeAllAppend(fs[1..], f);
    }
  }

  lemma DecodeShrinks(s: seq<byte>)
    ensures Decode(s).Got? ==> |Decode(s).rest| < |s|
  {
  }

  /** readLoop: whatever the segmentation, the frames of the stream in order, up to the error. */
  method ReadLoop(c: Conn) returns (frames: seq<Frame>, error: FrameError)
    modifies c`input
    ensures frames == DecodeAll(old(c.input)).0 && error == DecodeAll(old(c.input)).1
  {
    hide Decode;
    frames := [];
    while true
      invariant frames + DecodeAll(c.input).0 == DecodeAll(old(c.input)).0
      invariant DecodeAll(c.input).1 == DecodeAll(old(c.input)).1
      decreases |c.input|
    {
      DecodeShrinks(c.input);
      var r := ReadFrame(c);
      if r.Err? {
        assert frames + [] == frames;
        return frames, r.error;
      }
      assert frames + ([r.value] + DecodeAll(c.input).0) == (frames + [r.value]) + DecodeAll(c.input).0;
      frames := frames + [r.value];
    }
  }
}
