/** The tunnel list of a Register frame (packTunnels and unpackTunnels, relay/ctrlconn.go). */
module Tunnels {
  import opened Basics
  import opened Bytes

  const UINT16 := 0x1_0000

  type uint16 = n: nat | n < UINT16

  /** Strings are byte strings. */
  datatype Tunnel = Tunnel(port: uint16, bind: seq<byte>, target: seq<byte>)

  datatype UnpackError = ShortPayload | ShortEntry | ShortBind | ShortTargetLength | ShortTarget

  /** A string with its length in front, cut to a uint16. */
  function Field(s: seq<byte>): seq<byte> {
    Put16(|s| % UINT16) + s
  }

  function PackOne(t: Tunnel): seq<byte> {
    Put16(t.port) + Field(t.bind) + Field(t.target)
  }

  function PackEach(ts: seq<Tunnel>): seq<byte> {
    if ts == [] then [] else PackOne(ts[0]) + PackEach(ts[1..])
  }

  function Pack(ts: seq<Tunnel>): seq<byte> {
    Put16(|ts| % UINT16) + PackEach(ts)
  }

  /** A string with its length in front, and the bytes after it. */
  function ReadField(d: seq<byte>, noLength: UnpackError, tooShort: UnpackError)
    : Result<(seq<byte>, seq<byte>), UnpackError>
  {
    if |d| < 2 then Err(noLength)
    else
      var n := Get16(d[..2]);
      if |d| - 2 < n then Err(tooShort) else Ok((d[2..2 + n], d[2 + n..]))
  }

  /** One entry, and the bytes after it. */
  function UnpackOne(d: seq<byte>): Result<(Tunnel, seq<byte>), UnpackError> {
    if |d| < 4 then Err(ShortEntry)
    else
      match ReadField(d[2..], ShortEntry, ShortBind)
      case Err(e) => Err(e)
      case Ok((bind, d2)) =>
        match ReadField(d2, ShortTargetLength, ShortTarget)
        case Err(e) => Err(e)
        case Ok((target, rest)) => Ok((Tunnel(Get16(d[..2]), bind, target), rest))
  }

  function UnpackEach(count: nat, d: seq<byte>): Result<seq<Tunnel>, UnpackError> {
    if count == 0 then Ok([])
    else
      match UnpackOne(d)
      case Err(e) => Err(e)
      case Ok((t, rest)) => Prepend([t], UnpackEach(count - 1, rest))
  }

  /** The entries read so far, in front of those still to be read. */
  function Prepend(ts: seq<Tunnel>, r: Result<seq<Tunnel>, UnpackError>): Result<seq<Tunnel>, UnpackError> {
    match r
    case Ok(us) => Ok(ts + us)
    case Err(e) => Err(e)
  }

  function Unpack(d: seq<byte>): Result<seq<Tunnel>, UnpackError> {
    if |d| < 2 then Err(ShortPayload) else UnpackEach(Get16(d[..2]), d[2..])
  }

  predicate Fits16(t: Tunnel) {
    |t.bind| < UINT16 && |t.target| < UINT16
  }

  ghost predicate AllFit(ts: seq<Tunnel>) {
    |ts| < UINT16 && forall t :: t in ts ==> Fits16(t)
  }

  lemma FieldRoundTrip(s: seq<byte>, rest: seq<byte>, e1: UnpackError, e2: UnpackError)
    requires |s| < UINT16
    ensures ReadField(Field(s) + rest, e1, e2) == Ok((s, rest))
  {
    var d := Field(s) + rest;
    assert d[..2] == Put16(|s|) && d[2..2 + |s|] == s && d[2 + |s|..] == rest;
  }

  lemma FieldIsPacked(d: seq<byte>, e1: UnpackError, e2: UnpackError)
    requires ReadField(d, e1, e2).Ok?
    ensures var (s, rest) := ReadField(d, e1, e2).value; |s| < UINT16 && d == Field(s) + rest
  {
    var (s, rest) := ReadField(d, e1, e2).value;
    var n := Get16(d[..2]);
    BytesOf16(d[..2]);
    hide Get16, Put16;
    assert |s| % UINT16 == n;
    Rejoined(d, 2, 2 + n);
  }

  lemma OneRoundTrip(t: Tunnel, rest: seq<byte>)
    requires Fits16(t)
    ensures UnpackOne(PackOne(t) + rest) == Ok((t, rest))
  {
    hide Field, ReadField;
    var d := PackOne(t) + rest;
    assert d == Put16(t.port) + (Field(t.bind) + (Field(t.target) + rest));
    assert d[..2] == Put16(t.port) && d[2..] == Field(t.bind) + (Field(t.target) + rest);
    FieldRoundTrip(t.bind, Field(t.target) + rest, ShortEntry, ShortBind);
    FieldRoundTrip(t.target, rest, ShortTargetLength, ShortTarget);
    FieldLength(t.bind);
    FieldLength(t.target);
  }

  lemma FieldLength(s: seq<byte>)
    ensures |Field(s)| == 2 + |s|
  {
  }

  lemma {:induction false} EachRoundTrip(ts: seq<Tunnel>, rest: seq<byte>)
    requires forall t :: t in ts ==> Fits16(t)
    ensures UnpackEach(|ts|, PackEach(ts) + rest) == Ok(ts)
  {
    hide PackOne, UnpackOne;
    if ts != [] {
      OneRoundTrip(ts[0], PackEach(ts[1..]) + rest);
      assert PackEach(ts) + rest == PackOne(ts[0]) + (PackEach(ts[1..]) + rest);
      EachRoundTrip(ts[1..], rest);
      assert [ts[0]] + ts[1..] == ts;
    }
  }

  /** What one entry was read from is its packed form. */
  lemma OneIsPacked(d: seq<byte>)
    requires UnpackOne(d).Ok?
    ensures var (t, rest) := UnpackOne(d).value; Fits16(t) && d == PackOne(t) + rest
  {
    hide Field, ReadField;
    var (bind, d2) := ReadField(d[2..], ShortEntry, ShortBind).value;
    var (target, rest) := ReadField(d2, ShortTargetLength, ShortTarget).value;
    FieldIsPacked(d[2..], ShortEntry, ShortBind);
    FieldIsPacked(d2, ShortTargetLength, ShortTarget);
    BytesOf16(d[..2]);
    assert d == d[..2] + (Field(bind) + (Field(target) + rest));
  }

  lemma {:induction false} EachIsPacked(count: nat, d: seq<byte>)
    requires UnpackEach(count, d).Ok?
    ensures var ts := UnpackEach(count, d).value;
            |ts| == count && (forall t :: t in ts ==> Fits16(t)) && PackEach(ts) <= d
  {
    hide PackOne, UnpackOne, Fits16;
    if count > 0 {
      OneIsPacked(d);
      var (t, rest) := UnpackOne(d).value;
      EachIsPacked(count - 1, rest);
      var ts := UnpackEach(count - 1, rest).value;
      assert ([t] + ts)[1..] == ts;
      assert d == PackOne(t) + (PackEach(ts) + rest[|PackEach(ts)|..]);
    }
  }

  /** Decoding recovers the list, whatever follows, if and only if the list has fewer than 2^16
      entries with strings shorter than 2^16 bytes. */
  lemma PackRoundTrip(ts: seq<Tunnel>, suffix: seq<byte>)
    ensures Unpack(Pack(ts) + suffix) == Ok(ts) <==> AllFit(ts)
  {
    hide UnpackEach, PackEach, Fits16;
    var d := Pack(ts) + suffix;
    if AllFit(ts) {
      assert d[..2] == Put16(|ts|);
      assert d[2..] == PackEach(ts) + suffix;
      EachRoundTrip(ts, suffix);
    }
    if Unpack(d) == Ok(ts) {
      UnpackedIsPacked(d);
    }
  }

  /** The other direction: what was decoded, packed again, is where it was read from. */
  lemma UnpackedIsPacked(d: seq<byte>)
    requires Unpack(d).Ok?
    ensures AllFit(Unpack(d).value) && Pack(Unpack(d).value) <= d
  {
    hide UnpackEach, PackEach, Fits16;
    EachIsPacked(Get16(d[..2]), d[2..]);
    var ts := Unpack(d).value;
    BytesOf16(d[..2]);
    assert d == d[..2] + d[2..];
    assert d[2..] == PackEach(ts) + d[2..][|PackEach(ts)|..];
  }

  lemma {:induction false} PackEachAppend(ts: seq<Tunnel>, t: Tunnel)
    ensures PackEach(ts + [t]) == PackEach(ts) + PackOne(t)
  {
    hide PackOne;
    if ts == [] {
      assert ts + [t] == [t];
    } else {
      assert (ts + [t])[1..] == ts[1..] + [t];
      PackEachAppend(ts[1..], t);
    }
  }

  /** The format byte by byte: the number of tunnels, and for each its port, and its two addresses
      with their lengths in front. */
  lemma PackFormat(t: Tunnel, ts: seq<Tunnel>)
    ensures PackEach([]) == [] && |Pack(ts)| == 2 + |PackEach(ts)|
    ensures Pack(ts)[0] == |ts| / 0x100 % 0x100 && Pack(ts)[1] == |ts| % 0x100 && Pack(ts)[2..] == PackEach(ts)
    ensures PackEach([t] + ts) == [t.port / 0x100, t.port % 0x100]
                                  + ([|t.bind| / 0x100 % 0x100, |t.bind| % 0x100] + t.bind)
                                  + ([|t.target| / 0x100 % 0x100, |t.target| % 0x100] + t.target) + PackEach(ts)
  {
    assert ([t] + ts)[1..] == ts;
    LowDigits(|ts|);
    LowDigits(|t.bind|);
    LowDigits(|t.target|);
  }

  method PackTunnels(ts: seq<Tunnel>) returns (buf: seq<byte>)
    ensures buf == Pack(ts)
  {
    hide PackEach;
    buf := Put16(|ts| % UINT16);
    EmptyPack();
    for i := 0 to |ts|
      invariant buf == Put16(|ts| % UINT16) + PackEach(ts[..i])
    {
      var t := ts[i];
      ghost var buf0 := buf;
      buf := buf + Put16(t.port);
      buf := buf + Put16(|t.bind| % UINT16);
      buf := buf + t.bind;
      buf := buf + Put16(|t.target| % UINT16);
      buf := buf + t.target;
      assert buf == buf0 + PackOne(t);
      PackEachAppend(ts[..i], t);
      assert ts[..i + 1] == ts[..i] + [t];
    }
    assert ts[..|ts|] == ts;
  }

  lemma EmptyPack()
    ensures PackEach([]) == []
  {
  }

  /** Where the lengths of an entry are. */
  lemma EntryOnBytes(d: seq<byte>)
    ensures |d| >= 4 ==> Get16(d[..2]) == U16(d, 0) && Get16(d[2..4]) == U16(d, 2)
    ensures |d| >= 4 && |d| >= 6 + U16(d, 2) ==>
              Get16(d[4..][U16(d, 2)..][..2]) == U16(d, 4 + U16(d, 2))
  {
    if |d| >= 4 {
      Get16IsU16(d, 0);
      Get16IsU16(d, 2);
      assert d[..2] == d[0..2];
      var b := U16(d, 2);
      if |d| >= 6 + b {
        Get16IsU16(d, 4 + b);
        assert d[4..][b..][..2] == d[4 + b..4 + b + 2];
      }
    }
  }

  /** The body of the loop of unpackTunnels: it cuts one entry off the front of `data`. */
  method UnpackEntry(data: seq<byte>) returns (r: Result<(Tunnel, seq<byte>), UnpackError>)
    ensures r == UnpackOne(data)
    ensures |data| < 4 <==> r == Err(ShortEntry)
    ensures |data| >= 4 ==>
              var b := U16(data, 2);
              && (r == Err(ShortBind) <==> |data| < 4 + b)
              && (r == Err(ShortTargetLength) <==> 4 + b <= |data| < 6 + b)
              && (6 + b <= |data| ==>
                    var t := U16(data, 4 + b);
                    r == if |data| < 6 + b + t then Err(ShortTarget)
                         else Ok((Tunnel(U16(data, 0), data[4..4 + b], data[6 + b..6 + b + t]), data[6 + b + t..])))
  {
    var d := data;
    EntryOnBytes(data);
    hide U16;
    if |d| < 4 {
      return Err(ShortEntry);
    }
    var port, bindLen := Get16(d[..2]), Get16(d[2..4]);
    assert d[2..][..2] == d[2..4];
    d := d[4..];
    if |d| < bindLen {
      return Err(ShortBind);
    }
    var bind := d[..bindLen];
    d := d[bindLen..];
    assert bind == data[2..][2..2 + bindLen] && d == data[2..][2 + bindLen..];
    if |d| < 2 {
      return Err(ShortTargetLength);
    }
    ghost var d2 := d;
    var targetLen := Get16(d[..2]);
    assert d == data[4..][bindLen..] && targetLen == U16(data, 4 + bindLen);
    d := d[2..];
    if |d| < targetLen {
      return Err(ShortTarget);
    }
    var target := d[..targetLen];
    d := d[targetLen..];
    assert target == d2[2..2 + targetLen] && d == d2[2 + targetLen..];
    assert target == data[6 + bindLen..6 + bindLen + targetLen] && d == data[6 + bindLen + targetLen..];
    r := Ok((Tunnel(port, bind, target), d));
    assert r.value.0 == Tunnel(U16(data, 0), data[4..4 + bindLen], data[6 + bindLen..6 + bindLen + targetLen]);
  }

  /** With `ts` read, the answer for `data` rests on `count` more entries in `d`. */
  ghost predicate Left(data: seq<byte>, ts: seq<Tunnel>, count: nat, d: seq<byte>) {
    Unpack(data) == Prepend(ts, UnpackEach(count, d))
  }

  lemma LeftAtStart(data: seq<byte>)
    requires |data| >= 2
    ensures Left(data, [], Get16(data[..2]), data[2..])
  {
    var r := UnpackEach(Get16(data[..2]), data[2..]);
    if r.Ok? {
      assert [] + r.value == r.value;
    }
  }

  lemma LeftAfter(data: seq<byte>, ts: seq<Tunnel>, count: nat, d: seq<byte>)
    requires Left(data, ts, count, d)
    ensures count == 0 ==> Unpack(data) == Ok(ts)
    ensures count > 0 ==>
              match UnpackOne(d)
              case Err(e) => Unpack(data) == Err(e)
              case Ok((t, rest)) => Left(data, ts + [t], count - 1, rest)
  {
    hide UnpackOne, Unpack;
    if count == 0 {
      assert ts + [] == ts;
    } else if UnpackOne(d).Ok? && UnpackEach(count - 1, UnpackOne(d).value.1).Ok? {
      var us := UnpackEach(count - 1, UnpackOne(d).value.1).value;
      assert ts + ([UnpackOne(d).value.0] + us) == (ts + [UnpackOne(d).value.0]) + us;
    }
  }

  method UnpackTunnels(data: seq<byte>) returns (r: Result<seq<Tunnel>, UnpackError>)
    ensures r == Unpack(data)
    ensures |data| < 2 ==> r == Err(ShortPayload)
    ensures r.Ok? ==> |data| >= 2 && |r.value| == U16(data, 0)
  {
    if |data| < 2 {
      return Err(ShortPayload);
    }
    Get16IsU16(data, 0);
    assert data[..2] == data[0..2];
    hide UnpackOne, Unpack, Left, Get16, U16;
    var count, d := Get16(data[..2]), data[2..];
    var tunnels: seq<Tunnel> := [];
    LeftAtStart(data);
    for i := 0 to count
      invariant Left(data, tunnels, count - i, d) && |tunnels| == i
    {
      LeftAfter(data, tunnels, count - i, d);
      var entry := UnpackEntry(d);
      match entry
      case Err(e) => return Err(e);
      case Ok((t, rest)) =>
        tunnels := tunnels + [t];
        d := rest;
    }
    LeftAfter(data, tunnels, 0, d);
    r := Ok(tunnels);
  }
}
