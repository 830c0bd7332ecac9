/** Big-endian integers (encoding/binary) and a connection to read and write. */
module Bytes {
  import opened Basics

  function Put16(n: nat): (b: seq<byte>)
    requires n < 0x1_0000
    ensures |b| == 2
  {
    [n / 256, n % 256]
  }

  function Get16(b: seq<byte>): nat
    requires |b| == 2
  {
    (b[0] as int) * 256 + b[1]
  }

  function Put32(n: nat): (b: seq<byte>)
    requires n < 0x1_0000_0000
    ensures |b| == 4
  {
    Put16(n / 0x1_0000) + Put16(n % 0x1_0000)
  }

  function Get32(b: seq<byte>): nat
    requires |b| == 4
  {
    Get16(b[..2]) * 0x1_0000 + Get16(b[2..])
  }

  lemma RoundTrip32(n: nat)
    requires n < 0x1_0000_0000
    ensures Get32(Put32(n)) == n
  {
    var hi, lo := n / 0x1_0000, n % 0x1_0000;
    RoundTrip16(hi);
    RoundTrip16(lo);
    Pieces(Put16(hi), Put16(lo), []);
    hide Put16, Get16;
  }

  lemma RoundTrip16(n: nat)
    requires n < 0x1_0000
    ensures Get16(Put16(n)) == n
  {
  }

  lemma BytesOf16(b: seq<byte>)
    requires |b| == 2
    ensures Get16(b) < 0x1_0000 && Put16(Get16(b)) == b
  {
  }

  lemma Halves(hi: nat, lo: nat)
    requires hi < 0x1_0000 && lo < 0x1_0000
    ensures var n := hi * 0x1_0000 + lo; n < 0x1_0000_0000 && n / 0x1_0000 == hi && n % 0x1_0000 == lo
  {
  }

  lemma BytesOf32(b: seq<byte>)
    requires |b| == 4
    ensures Get32(b) < 0x1_0000_0000 && Put32(Get32(b)) == b
  {
    BytesOf16(b[..2]);
    BytesOf16(b[2..]);
    hide Get16, Put16;
    Halves(Get16(b[..2]), Get16(b[2..]));
    Rejoined(b, 2, 4);
  }

  // The big-endian layout, byte by byte.

  function Big16(n: nat): (b: seq<byte>)
    requires n < 0x1_0000
    ensures |b| == 2
  {
    [n / 0x100, n % 0x100]
  }

  function Big32(n: nat): (b: seq<byte>)
    requires n < 0x1_0000_0000
    ensures |b| == 4
  {
    [n / 0x100_0000, n / 0x1_0000 % 0x100, n / 0x100 % 0x100, n % 0x100]
  }

  /** The number at place `i`. */
  function U16(p: seq<byte>, i: nat): (n: nat)
    requires i + 2 <= |p|
    ensures n < 0x1_0000
  {
    p[i] as int * 0x100 + p[i + 1]
  }

  function U32(p: seq<byte>, i: nat): (n: nat)
    requires i + 4 <= |p|
    ensures n < 0x1_0000_0000
  {
    p[i] as int * 0x100_0000 + p[i + 1] as int * 0x1_0000 + p[i + 2] as int * 0x100 + p[i + 3]
  }

  lemma Put16IsBig(n: nat)
    requires n < 0x1_0000
    ensures Put16(n) == Big16(n)
  {
  }

  /** The two digits of base 256 in the lower half. */
  lemma LowDigits(n: nat)
    ensures n % 0x1_0000 / 0x100 == n / 0x100 % 0x100 && n % 0x1_0000 % 0x100 == n % 0x100
  {
    var q := n / 0x100;
    assert n == q * 0x100 + n % 0x100 && n / 0x1_0000 == q / 0x100;
    assert q == q / 0x100 * 0x100 + q % 0x100;
  }

  lemma Put32IsBig(n: nat)
    requires n < 0x1_0000_0000
    ensures Put32(n) == Big32(n)
  {
    LowDigits(n);
    assert n / 0x1_0000 / 0x100 == n / 0x100_0000;
  }

  lemma Get16IsU16(p: seq<byte>, i: nat)
    requires i + 2 <= |p|
    ensures Get16(p[i..i + 2]) == U16(p, i)
  {
  }

  lemma Get32IsU32(p: seq<byte>, i: nat)
    requires i + 4 <= |p|
    ensures Get32(p[i..i + 4]) == U32(p, i)
  {
    var q := p[i..i + 4];
    assert q[..2] == p[i..i + 2] && q[2..] == p[i + 2..i + 4];
  }

  /** What io.ReadFull reports. */
  datatype ReadFailure = EndOfFile | UnexpectedEof

  /** A reliable byte stream in each direction. `input` is what the peer has sent and will
      still arrive before its end of file; `output` is what has been written. */
  class Conn {
    var input: seq<byte>
    var output: seq<byte>
    var up: bool
    /** Whether this end has half-closed the connection. */
    var finished: bool

    constructor (input: seq<byte>)
      ensures this.input == input && output == [] && up && !finished
    {
      this.input, output, up, finished := input, [], true, false;
    }

    method CloseWrite()
      modifies this`finished
      ensures finished
    {
      finished := true;
    }

    /** One Read: any number of the bytes still to come, up to the room in `buf` from `at`. */
    method Read(buf: array<byte>, at: nat) returns (n: nat)
      requires at < buf.Length
      modifies this`input, buf
      ensures n <= buf.Length - at && n <= |old(input)| && (n == 0 <==> old(input) == [])
      ensures buf[..] == old(buf[..at]) + old(input)[..n] + old(buf[at + n..])
      ensures input == old(input)[n..]
    {
      if input == [] {
        n := 0;
      } else {
        var k: nat :| 0 < k <= |input| && k <= buf.Length - at;
        n := k;
        var taken := input[..n];
        forall i | 0 <= i < n {
          buf[at + i] := taken[i];
        }
        input := input[n..];
      }
    }

    method Write(data: seq<byte>) returns (ok: bool)
      modifies this`output
      ensures ok == up && output == if up then old(output) + data else old(output)
    {
      ok := up;
      if up {
        output := output + data;
      }
    }

    /** io.ReadFull: fills `buf` however the bytes are split over reads. */
    method ReadFull(buf: array<byte>) returns (r: Option<ReadFailure>)
      modifies this`input, buf
      ensures r.None? <==> buf.Length <= |old(input)|
      ensures r.None? ==> buf[..] == old(input)[..buf.Length] && input == old(input)[buf.Length..]
      ensures r.Some? ==> input == [] && r.value == if old(input) == [] then EndOfFile else UnexpectedEof
    {
      var n := 0;
      while n < buf.Length
        invariant 0 <= n <= buf.Length && n <= |old(input)|
        invariant buf[..n] == old(input)[..n] && input == old(input)[n..]
        invariant output == old(output) && up == old(up)
      {
        var before := buf[..];
        var k := Read(buf, n);
        assert buf[..n + k] == before[..n] + old(input)[n..][..k];
        if k == 0 {
          return Some(if n == 0 then EndOfFile else UnexpectedEof);
        }
        n := n + k;
      }
      r := None;
    }
  }
}
