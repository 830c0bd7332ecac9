/** The two copies of Relay (relay/relay.go) on connections updated in place. Here one copy runs
    after the other; how their steps interleave is the subject of RelaySystem. */
module RelayObject {
  import opened Basics
  import opened Bytes

  const BUFFER_SIZE := 32 * 1024

  class Stats {
    var sentBytes: nat
    var recvBytes: nat
    var sentFailed: bool
    var recvFailed: bool

    constructor ()
      ensures sentBytes == 0 && recvBytes == 0 && !sentFailed && !recvFailed
    {
      sentBytes, recvBytes, sentFailed, recvFailed := 0, 0, false, false;
    }
  }

  /** io.CopyBuffer: read into the buffer and write out what was read, until the end of `src` or a
      failed write. */
  method CopyBuffer(dst: Conn, src: Conn, buf: array<byte>) returns (written: nat, ok: bool)
    requires dst != src && buf.Length > 0
    modifies src`input, dst`output, buf
    ensures written <= |old(src.input)| && dst.output == old(dst.output) + old(src.input)[..written]
    ensures ok <==> dst.up || old(src.input) == []
    ensures ok ==> written == |old(src.input)| && src.input == []
    ensures !ok ==> written == 0
  {
    written, ok := 0, true;
    ghost var all := src.input;
    assert all[..0] == [];
    while true
      invariant written <= |all| && src.input == all[written..] && dst.output == old(dst.output) + all[..written]
      invariant written == 0 || dst.up
      decreases |src.input|
    {
      ghost var before := buf[..];
      var n := src.Read(buf, 0);
      if n == 0 {
        assert all[..written] == all;
        break;
      }
      Pieces(all[written..][..n], before[n..], []);
      assert buf[..] == all[written..][..n] + before[n..];
      assert buf[..n] == buf[..][..n];
      Rejoined(all, written, written + n);
      ok := dst.Write(buf[..n]);
      if !ok {
        break;
      }
      Pieces(old(dst.output), all[..written], all[written..][..n]);
      written := written + n;
    }
  }

  /** Relay: with both connections up, each gets exactly what the other still sends, and then its
      end; the statistics say how much that was. */
  method Relay(a: Conn, b: Conn) returns (s: Stats)
    requires a != b
    modifies a`input, a`output, a`finished, b`input, b`output, b`finished
    ensures fresh(s) && a.finished && b.finished
    ensures s.sentBytes <= |old(a.input)| && b.output == old(b.output) + old(a.input)[..s.sentBytes]
    ensures s.recvBytes <= |old(b.input)| && a.output == old(a.output) + old(b.input)[..s.recvBytes]
    ensures s.sentFailed <==> !b.up && old(a.input) != []
    ensures s.recvFailed <==> !a.up && old(b.input) != []
    ensures !s.sentFailed ==> s.sentBytes == |old(a.input)| && a.input == []
    ensures !s.recvFailed ==> s.recvBytes == |old(b.input)| && b.input == []
  {
    s := new Stats();
    var there, back := new byte[BUFFER_SIZE], new byte[BUFFER_SIZE];
    var n, ok := CopyBuffer(b, a, there);
    s.sentBytes, s.sentFailed := n, !ok;
    b.CloseWrite();
    n, ok := CopyBuffer(a, b, back);
    s.recvBytes, s.recvFailed := n, !ok;
    a.CloseWrite();
  }
}
