/** How the frames of a channel are laid out in bytes, and how the handlers read them back
    (relay/ctrlconn.go:63-148, 171-193; relay/stream.go:105-108, 126-128, 152-154, 192-197). */
module Messages {
  import opened Basics
  import opened Bytes
  import opened ChannelEnd
  import opened Direction
  import opened Link
  import opened Mux
  import opened ChannelTheorems
  import Frames

  type Frame = Frames.Frame

  const PING: byte := 1
  const PONG: byte := 2
  const NEW_CHANNEL: byte := 3
  const CHANNEL_DATA: byte := 4
  const CHANNEL_CLOSE: byte := 5
  const WINDOW_UPDATE: byte := 9

  /** OpenChannel's payload: the length of the target goes out as a uint16. */
  function NewPayload(id: nat, target: seq<byte>): seq<byte>
    requires id < UINT32
  {
    Put32(id) + Put16(|target| % 0x1_0000) + target
  }

  /** The frame that carries a message of channel `id`. */
  function FrameOf(id: nat, m: Message): (f: Frame)
    requires id < UINT32
    ensures |f.payload| == PayloadLength(m)
  {
    match m
    case New(t) => Frames.Frame(NEW_CHANNEL, NewPayload(id, t))
    case Data(b) => Frames.Frame(CHANNEL_DATA, Put32(id) + b)
    case Fin => Frames.Frame(CHANNEL_CLOSE, Put32(id))
    case Credit(n) => Frames.Frame(WINDOW_UPDATE, Put32(id) + Put32(n % UINT32))
  }

  /** An item that every field width of the format can hold. */
  predicate Representable(item: Item) {
    match item
    case Ping(p) => |p| <= Frames.MAX_PAYLOAD
    case Pong(p) => |p| <= Frames.MAX_PAYLOAD
    case OnChannel(id, m) => id < UINT32 && (m.New? || Fits(m)) && (m.New? ==> |m.target| <= MAX_TARGET)
  }

  function EncodeItem(item: Item): Frame
    requires Representable(item)
  {
    match item
    case Ping(p) => Frames.Frame(PING, p)
    case Pong(p) => Frames.Frame(PONG, p)
    case OnChannel(id, msg) => FrameOf(id, msg)
  }

  /** What a handler makes of a payload. `Ignored` is a return without effect, and `Panics` a
      slice expression out of range. */
  datatype Parsed = Is(item: Item) | Ignored | Panics

  /** handleNewChannel: `6+targetLen` is a sum of uint16 values, and may wrap around. */
  function ParseNew(p: seq<byte>): Parsed {
    if |p| < 6 then Ignored
    else
      var n := Get16(p[4..6]);
      if |p| < 6 + n then Ignored
      else
        var end := (6 + n) % 0x1_0000;
        if end < 6 then Panics else Is(OnChannel(Get32(p[..4]), New(p[6..end])))
  }

  /** handleFrame up to the map lookup. */
  function Parse(f: Frame): Parsed {
    var p := f.payload;
    if f.kind == NEW_CHANNEL then ParseNew(p)
    else if f.kind == CHANNEL_DATA then
      if |p| < 4 then Ignored else Is(OnChannel(Get32(p[..4]), Data(p[4..])))
    else if f.kind == CHANNEL_CLOSE then
      if |p| < 4 then Ignored else Is(OnChannel(Get32(p[..4]), Fin))
    else if f.kind == WINDOW_UPDATE then
      if |p| < 8 then Ignored else Is(OnChannel(Get32(p[..4]), Credit(Get32(p[4..8]))))
    else if f.kind == PING then Is(Ping(p))
    else if f.kind == PONG then Is(Pong(p))
    else Ignored
  }

  /** What a message of channel `id` is in a frame, byte by byte: its type, the id, and for a request
      the length of the target and the target, for data the data, for credit the amount. */
  lemma MessageFormat(id: nat, m: Message)
    requires id < UINT32
    ensures var f := FrameOf(id, m);
            var p := f.payload;
            && |p| >= 4
            && p[0] == id / 0x100_0000 && p[1] == id / 0x1_0000 % 0x100 && p[2] == id / 0x100 % 0x100 && p[3] == id % 0x100
            && match m
               case New(t) =>
                 f.kind == 3 && |p| == 6 + |t| && p[4] == |t| / 0x100 % 0x100 && p[5] == |t| % 0x100 && p[6..] == t
               case Data(b) => f.kind == 4 && p[4..] == b
               case Fin => f.kind == 5 && |p| == 4
               case Credit(n) =>
                 && f.kind == 9 && |p| == 8
                 && var k := n % 0x1_0000_0000;
                    p[4] == k / 0x100_0000 && p[5] == k / 0x1_0000 % 0x100 && p[6] == k / 0x100 % 0x100 && p[7] == k % 0x100
  {
    Put32IsBig(id);
    match m
    case New(t) => LowDigits(|t|);
    case Credit(n) =>
      Put32IsBig(n % UINT32);
    case _ =>
  }

  /** The format byte by byte: what a handler makes of each frame type. */
  lemma ParseOnBytes(f: Frame)
    ensures var p := f.payload;
            && (f.kind == 4 ==> Parse(f) == if |p| < 4 then Ignored else Is(OnChannel(U32(p, 0), Data(p[4..]))))
            && (f.kind == 5 ==> Parse(f) == if |p| < 4 then Ignored else Is(OnChannel(U32(p, 0), Fin)))
            && (f.kind == 9 ==> Parse(f) == if |p| < 8 then Ignored else Is(OnChannel(U32(p, 0), Credit(U32(p, 4)))))
            && (f.kind == 1 ==> Parse(f) == Is(Ping(p))) && (f.kind == 2 ==> Parse(f) == Is(Pong(p)))
            && (f.kind !in {1, 2, 3, 4, 5, 9} ==> Parse(f) == Ignored)
            && (f.kind == 3 ==>
                  Parse(f) == if |p| < 6 || |p| < 6 + U16(p, 4) then Ignored
                              else if U16(p, 4) >= 65530 then Panics
                              else Is(OnChannel(U32(p, 0), New(p[6..6 + U16(p, 4)]))))
  {
    var p := f.payload;
    if |p| >= 4 {
      Get32IsU32(p, 0);
      assert p[..4] == p[0..4];
    }
    if |p| >= 6 {
      Get16IsU16(p, 4);
    }
    if |p| >= 8 {
      Get32IsU32(p, 4);
    }
    hide Get32, Get16, U32, U16;
  }

  /** What the handler makes of a target whose length arrives as `n`. */
  lemma NewParses(id: nat, target: seq<byte>, n: nat)
    requires id < UINT32 && n == |target| % 0x1_0000
    ensures ParseNew(NewPayload(id, target)) ==
              if n >= 65530 then Panics else Is(OnChannel(id, New(target[..n])))
  {
    hide Put32, Get32, Put16, Get16;
    RoundTrip32(id);
    RoundTrip16(n);
    Pieces(Put32(id), Put16(n), target);
    assert NewPayload(id, target)[6..6 + n] == target[..n];
  }

  /** The open request is understood if and only if the target is at most 65529 bytes long. The
      peer's read loop panics if and only if the length that arrives, the length modulo 2^16, is
      65530 or more; otherwise that many bytes of the target arrive. */
  lemma NewRoundTrip(id: nat, target: seq<byte>)
    requires id < UINT32
    ensures ParseNew(NewPayload(id, target)) == Is(OnChannel(id, New(target))) <==> |target| <= MAX_TARGET
    ensures ParseNew(NewPayload(id, target)) == Panics <==> |target| % 0x1_0000 >= 65530
    ensures |target| % 0x1_0000 < 65530 ==>
              ParseNew(NewPayload(id, target)) == Is(OnChannel(id, New(target[..|target| % 0x1_0000])))
  {
    hide ParseNew, NewPayload;
    NewParses(id, target, |target| % 0x1_0000);
    assert |target| <= MAX_TARGET ==> target[..|target| % 0x1_0000] == target;
  }

  lemma DataRoundTrip(id: nat, b: seq<byte>)
    requires id < UINT32
    ensures Parse(FrameOf(id, Data(b))) == Is(OnChannel(id, Data(b)))
  {
    hide Put32, Get32;
    RoundTrip32(id);
    Pieces(Put32(id), b, []);
  }

  lemma FinRoundTrip(id: nat)
    requires id < UINT32
    ensures Parse(FrameOf(id, Fin)) == Is(OnChannel(id, Fin))
  {
    hide Put32, Get32;
    RoundTrip32(id);
    assert Put32(id)[..4] == Put32(id);
  }

  lemma CreditRoundTrip(id: nat, n: nat)
    requires id < UINT32 && n < UINT32
    ensures Parse(FrameOf(id, Credit(n))) == Is(OnChannel(id, Credit(n)))
  {
    hide Put32, Get32;
    RoundTrip32(id);
    RoundTrip32(n);
    Pieces(Put32(id), Put32(n), []);
  }

  lemma ItemRoundTrip(item: Item)
    requires Representable(item)
    ensures Parse(EncodeItem(item)) == Is(item) && Frames.Legal(EncodeItem(item))
  {
    match item
    case OnChannel(id, msg) =>
      hide Parse, ParseNew, NewPayload;
      match msg {
        case New(t) =>
          NewRoundTrip(id, t);
          NewIsParsed(id, t);
        case Data(b) => DataRoundTrip(id, b);
        case Fin => FinRoundTrip(id);
        case Credit(n) => CreditRoundTrip(id, n);
      }
    case _ =>
  }

  lemma NewIsParsed(id: nat, target: seq<byte>)
    requires id < UINT32
    ensures Parse(FrameOf(id, New(target))) == ParseNew(NewPayload(id, target))
  {
  }

  lemma {:induction false} InFilter(items: seq<Item>, i: nat)
    requires i < |items| && items[i].OnChannel?
    ensures items[i].m in Filter(items, items[i].id)
  {
    if i > 0 {
      InFilter(items[1..], i - 1);
    }
  }

  /** Every frame of every reachable mux fits the format. */
  lemma WireIsRepresentable(m: Mux, side: Side, i: nat)
    requires MuxReachable(m) && i < |m.wires.Of(side)|
    ensures Representable(m.wires.Of(side)[i])
  {
    hide MuxReachable;
    ReachableMuxInv(m);
    var item := m.wires.Of(side)[i];
    if item.OnChannel? {
      ChannelsAreIndependent(m, item.id);
      InFilter(m.wires.Of(side), i);
      var l := Project(m, item.id);
      assert item.m in Flight(l, side);
      FlightIsRepresentable(l, side, item.m);
      assert item.id in m.ends.server;
    } else {
      assert item in m.wires.Of(side);
    }
  }

  lemma FlightIsRepresentable(l: Link, side: Side, msg: Message)
    requires Reachable(l) && msg in Flight(l, side)
    ensures l.ends.server.life.made
    ensures if msg.New? then |msg.target| <= MAX_TARGET else Fits(msg)
  {
    hide DirInv;
    ReachableInv(l);
    NothingOverflows(l, side);
    EndInvLive(l.ends.server);
    EndInvLive(l.ends.client);
    var i :| 0 <= i < |Flight(l, side)| && Flight(l, side)[i] == msg;
  }

  function EncodeItems(items: seq<Item>): seq<Frame>
    requires forall i :: 0 <= i < |items| ==> Representable(items[i])
  {
    seq(|items|, i requires 0 <= i < |items| => EncodeItem(items[i]))
  }

  /** The mux in bytes: what a side has put on the connection is read back by the other side's
      read loop as the same frames in the same order, and each handler recovers its frame's
      channel, kind and contents. */
  lemma BytesCarryTheMux(m: Mux, side: Side)
    requires MuxReachable(m)
    ensures forall i :: 0 <= i < |m.wires.Of(side)| ==> Representable(m.wires.Of(side)[i])
    ensures var fs := EncodeItems(m.wires.Of(side));
            && (forall f :: f in fs ==> Frames.Legal(f))
            && Frames.DecodeAll(Frames.EncodeAll(fs)).0 == fs
            && forall i :: 0 <= i < |fs| ==> Parse(fs[i]) == Is(m.wires.Of(side)[i])
  {
    hide MuxReachable, Parse, EncodeItem, Representable, Frames.Encode, Frames.Legal;
    var items := m.wires.Of(side);
    forall i | 0 <= i < |items| ensures Representable(items[i]) {
      WireIsRepresentable(m, side, i);
    }
    var fs := EncodeItems(items);
    forall i | 0 <= i < |fs| ensures Parse(fs[i]) == Is(items[i]) && Frames.Legal(fs[i]) {
      ItemRoundTrip(items[i]);
    }
    var none := Frames.Frame(0, []);
    EmptyFrame();
    Frames.StreamIsDecoded(fs, none, 0);
    assert Frames.EncodeAll(fs) + Frames.Encode(none)[..0] == Frames.EncodeAll(fs);
  }

  lemma EmptyFrame()
    ensures Frames.Legal(Frames.Frame(0, [])) && |Frames.Encode(Frames.Frame(0, []))| == 5
  {
  }
}
