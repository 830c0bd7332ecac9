/** The multiplexer object (relay/ctrlconn.go), updated in place: the channel map, nextID and
    the queue of channels that wait for AcceptChannel. */
module CtrlConnObject {
  import opened Basics
  import opened Bytes
  import opened ChannelEnd
  import opened Link
  import opened Mux
  import opened Messages
  import opened ChannelObject
  import Frames

  /** The read loop goes on, blocks on a full `newCh`, or panics. */
  datatype Handled = Done | Blocks(ch: Channel) | Crashed

  /** The frame acts on a channel that the map has under `id`. */
  predicate Addressed(f: Frame, id: nat) {
    var p := f.payload;
    (((f.kind == 4 || f.kind == 5) && |p| >= 4) || (f.kind == 9 && |p| >= 8)) && id == U32(p, 0)
  }

  class CtrlConn {
    const conn: Conn
    var channels: map<nat, Channel>
    var nextID: nat
    var newCh: seq<Channel>

    ghost predicate Valid()
      reads this
    {
      && nextID < UINT32
      && (forall id :: id in channels ==> channels[id].id == id && id < UINT32 && channels[id].ctrl == conn)
    }

    constructor (conn: Conn)
      ensures this.conn == conn && channels == map[] && nextID == 1 && newCh == [] && Valid()
    {
      this.conn := conn;
      channels, nextID, newCh := map[], 1, [];
    }

    /** handleNewChannel and the sending to newCh. The sum of the header length and the length of
        the target is a uint16, and the slice up to it is out of range if it wraps around. */
    method HandleNewChannel(p: seq<byte>) returns (h: Handled)
      requires Valid()
      modifies this`channels, this`newCh
      ensures Valid()
      ensures var complete := |p| >= 6 && |p| >= 6 + U16(p, 4);
              && (h == Crashed <==> complete && U16(p, 4) >= 65530)
              && (!complete || h == Crashed ==> channels == old(channels) && newCh == old(newCh))
              && (!complete ==> h == Done)
              && (complete && h != Crashed ==>
                    && U32(p, 0) in channels
                    && var ch := channels[U32(p, 0)];
                       && fresh(ch) && channels == old(channels)[U32(p, 0) := ch]
                       && ch.target == p[6..6 + U16(p, 4)] && ch.IsNew()
                       && (if |old(newCh)| < 64 then h == Done && newCh == old(newCh) + [ch]
                           else h == Blocks(ch) && newCh == old(newCh)))
    {
      if |p| < 6 {
        return Done;
      }
      Get32IsU32(p, 0);
      Get16IsU16(p, 4);
      assert p[..4] == p[0..4];
      var id, targetLen := Get32(p[..4]), Get16(p[4..6]);
      hide Get32, Get16, U32, U16, Channel.IsNew;
      if |p| < 6 + targetLen {
        return Done;
      }
      var end := (6 + targetLen) % 0x1_0000;
      if end < 6 {
        return Crashed;
      }
      var ch := new Channel(id, conn, p[6..end]);
      channels := channels[id := ch];
      if |newCh| < ACCEPT_QUEUE {
        newCh := newCh + [ch];
        h := Done;
      } else {
        h := Blocks(ch);
      }
    }

    method HandleChannelData(p: seq<byte>)
      requires Valid()
      modifies channels.Values`rb, channels.Values`rerr, channels.Values`reader
      ensures |p| >= 4 && U32(p, 0) in channels ==>
                var ch := channels[U32(p, 0)];
                var fits := |old(ch.rb)| + |p| - 4 <= 262144;
                && ch.rb == (if fits then old(ch.rb) + p[4..] else old(ch.rb))
                && ch.rerr == (if fits then old(ch.rerr) else Overflow) && ch.reader == Woken(old(ch.reader))
                && ch.RxOf() == ChannelEnd.PushData(old(ch.RxOf()), p[4..])
      ensures forall id :: id in channels && !(|p| >= 4 && id == U32(p, 0)) ==> unchanged(channels[id])
    {
      if |p| < 4 {
        return;
      }
      Get32IsU32(p, 0);
      assert p[..4] == p[0..4];
      var id := Get32(p[..4]);
      hide Get32, U32, ChannelEnd.PushData, Channel.RxOf;
      if id in channels {
        var closes := channels[id].PushData(p[4..]);
      }
    }

    method HandleChannelClose(p: seq<byte>)
      requires Valid()
      modifies channels.Values`rerr, channels.Values`reader
      ensures |p| >= 4 && U32(p, 0) in channels ==>
                var ch := channels[U32(p, 0)];
                && ch.rerr == Eof && ch.reader == Woken(old(ch.reader))
                && ch.RxOf() == ChannelEnd.SetError(old(ch.RxOf()), Eof)
      ensures forall id :: id in channels && !(|p| >= 4 && id == U32(p, 0)) ==> unchanged(channels[id])
    {
      if |p| < 4 {
        return;
      }
      Get32IsU32(p, 0);
      assert p[..4] == p[0..4];
      var id := Get32(p[..4]);
      hide Get32, U32, ChannelEnd.SetError, Channel.RxOf;
      if id in channels {
        channels[id].SetError(Eof);
      }
    }

    method HandleWindowUpdate(p: seq<byte>)
      requires Valid()
      modifies channels.Values`sendWindow, channels.Values`writer
      ensures |p| >= 8 && U32(p, 0) in channels ==>
                var ch := channels[U32(p, 0)];
                && ch.sendWindow == old(ch.sendWindow) + U32(p, 4) && ch.writer == Resumed(old(ch.writer))
                && ch.TxOf() == ChannelEnd.AddSendWindow(old(ch.TxOf()), U32(p, 4))
      ensures forall id :: id in channels && !(|p| >= 8 && id == U32(p, 0)) ==> unchanged(channels[id])
    {
      if |p| < 8 {
        return;
      }
      Get32IsU32(p, 0);
      Get32IsU32(p, 4);
      assert p[..4] == p[0..4];
      var id, delta := Get32(p[..4]), Get32(p[4..8]);
      hide Get32, U32, ChannelEnd.AddSendWindow, Channel.TxOf;
      if id in channels {
        channels[id].AddSendWindow(delta);
      }
    }

    method HandlePing(p: seq<byte>)
      modifies conn`output
      ensures conn.output == old(conn.output) + if conn.up && |p| <= 16777216 then Big32(|p|) + [2] + p else []
    {
      if |p| <= Frames.MAX_PAYLOAD {
        Put32IsBig(|p|);
      }
      hide Put32, Big32;
      var sent := Frames.WriteFrame(conn, PONG, p);
    }

    /** handleFrame: what each frame type does, from the bytes of its payload. A frame with a channel
        id acts on the channel that the map has under it, if any, as `Receive` says of what `Parse`
        makes of it; no other channel moves. */
    method HandleFrame(f: Frame) returns (h: Handled)
      requires Valid()
      modifies this`channels, this`newCh, channels.Values, conn`output
      ensures Valid()
      ensures f.kind == 4 && |f.payload| >= 4 && U32(f.payload, 0) in old(channels) ==>
                var ch := old(channels)[U32(f.payload, 0)];
                var fits := |old(ch.rb)| + |f.payload| - 4 <= 262144;
                && ch.rb == (if fits then old(ch.rb) + f.payload[4..] else old(ch.rb))
                && ch.rerr == (if fits then old(ch.rerr) else Overflow) && ch.reader == Woken(old(ch.reader))
      ensures f.kind == 5 && |f.payload| >= 4 && U32(f.payload, 0) in old(channels) ==>
                var ch := old(channels)[U32(f.payload, 0)];
                && ch.rb == old(ch.rb) && ch.rerr == Eof && ch.reader == Woken(old(ch.reader))
      ensures f.kind == 9 && |f.payload| >= 8 && U32(f.payload, 0) in old(channels) ==>
                var ch := old(channels)[U32(f.payload, 0)];
                && ch.sendWindow == old(ch.sendWindow) + U32(f.payload, 4) && ch.writer == Resumed(old(ch.writer))
      ensures forall id :: id in old(channels) && !Addressed(f, id) ==> unchanged(old(channels[id]))
      ensures forall ch :: ch in old(channels.Values) ==> ch.status == old(ch.status) && ch.closer == old(ch.closer)
      ensures var p := f.payload;
              var complete := f.kind == 3 && |p| >= 6 && |p| >= 6 + U16(p, 4);
              && (h == Crashed <==> complete && U16(p, 4) >= 65530)
              && (!complete || h == Crashed ==> channels == old(channels) && newCh == old(newCh))
              && (!complete ==> h == Done)
              && (complete && h != Crashed ==>
                    && U32(p, 0) in channels
                    && var ch := channels[U32(p, 0)];
                       && fresh(ch) && channels == old(channels)[U32(p, 0) := ch]
                       && ch.target == p[6..6 + U16(p, 4)] && ch.IsNew()
                       && (if |old(newCh)| < 64 then h == Done && newCh == old(newCh) + [ch]
                           else h == Blocks(ch) && newCh == old(newCh)))
      ensures conn.output == old(conn.output)
                             + if f.kind == 1 && conn.up && |f.payload| <= 16777216
                               then Big32(|f.payload|) + [2] + f.payload else []
      ensures match Parse(f)
              case Is(OnChannel(id, Data(b))) =>
                id in old(channels) ==> var ch := old(channels)[id];
                  ch.RxOf() == ChannelEnd.PushData(old(ch.RxOf()), b) && ch.TxOf() == old(ch.TxOf())
              case Is(OnChannel(id, Fin)) =>
                id in old(channels) ==> var ch := old(channels)[id];
                  ch.RxOf() == ChannelEnd.SetError(old(ch.RxOf()), Eof) && ch.TxOf() == old(ch.TxOf())
              case Is(OnChannel(id, Credit(n))) =>
                id in old(channels) ==> var ch := old(channels)[id];
                  ch.RxOf() == old(ch.RxOf()) && ch.TxOf() == ChannelEnd.AddSendWindow(old(ch.TxOf()), n)
              case Is(OnChannel(id, New(t))) => h != Crashed && id in channels && channels[id].target == t
              case Panics => h == Crashed
              case _ => h == Done
    {
      ParseOnBytes(f);
      hide ChannelEnd.PushData, ChannelEnd.SetError, ChannelEnd.AddSendWindow, U32, U16, Big32, Parse, Channel.IsNew;
      h := Done;
      if f.kind == NEW_CHANNEL {
        h := HandleNewChannel(f.payload);
      } else if f.kind == CHANNEL_DATA {
        HandleChannelData(f.payload);
      } else if f.kind == CHANNEL_CLOSE {
        HandleChannelClose(f.payload);
      } else if f.kind == WINDOW_UPDATE {
        HandleWindowUpdate(f.payload);
      } else if f.kind == PING {
        HandlePing(f.payload);
      }
    }

    /** OpenChannel: takes nextID and sends the request; when sending fails, the id is free again. */
    method OpenChannel(target: seq<byte>) returns (ch: Option<Channel>)
      requires Valid()
      modifies this`channels, this`nextID, conn`output
      ensures Valid() && nextID == (old(nextID) + 1) % UINT32
      ensures ch.Some? <==> conn.up && Frames.Legal(FrameOf(old(nextID), New(target)))
      ensures ch.Some? ==> channels == old(channels)[old(nextID) := ch.value] && fresh(ch.value)
                           && ch.value.id == old(nextID) && ch.value.target == target && ch.value.IsNew()
      ensures ch.None? ==> channels == old(channels) - {old(nextID)}
      ensures conn.output == old(conn.output)
                             + if ch.Some? then Frames.Encode(FrameOf(old(nextID), New(target))) else []
      ensures nextID == (old(nextID) + 1) % 0x1_0000_0000 && (ch.Some? <==> conn.up && 6 + |target| <= 16777216)
      ensures conn.output == old(conn.output)
                             + if ch.Some? then
                                 Big32(6 + |target|) + [3] + (Big32(old(nextID)) + Big16(|target| % 0x1_0000) + target)
                               else []
    {
      NewBytes(nextID, target);
      hide Frames.Encode, Put32, Put16, Big32, Big16, Channel.IsNew;
      var id := nextID;
      nextID := (nextID + 1) % UINT32;
      var c := new Channel(id, conn, target);
      channels := channels[id := c];
      var ok := Frames.WriteFrame(conn, NEW_CHANNEL, NewPayload(id, target));
      if !ok {
        channels := channels - {id};
        return None;
      }
      ch := Some(c);
    }

    method RemoveChannel(id: nat)
      requires Valid()
      modifies this`channels
      ensures Valid() && channels == old(channels) - {id}
    {
      channels := channels - {id};
    }

    /** A channel's Close when no other goroutine comes between its sections. */
    method CloseChannel(ch: Channel) returns (first: bool)
      requires Valid() && ch.ctrl == conn && ch.id < UINT32
      modifies this`channels, ch`status, ch`closer, ch`reader, ch`writer, ch`finAt, conn`output
      ensures Valid() && first == (old(ch.status) != Closed) && ch.status == Closed
      ensures channels == if first then old(channels) - {ch.id} else old(channels)
      ensures first ==> ch.RxOf() == WakeRx(old(ch.RxOf())) && ch.TxOf() == MarkFin(WakeTx(old(ch.TxOf())), conn.up)
      ensures first ==> ch.closer == CDone
      ensures !first ==> ch.RxOf() == old(ch.RxOf()) && ch.TxOf() == old(ch.TxOf()) && ch.closer == old(ch.closer)
      ensures conn.output == old(conn.output) + if first then WireBytes(ch.id, Sent(conn.up, Fin)) else []
      ensures first ==> conn.output == old(conn.output) + (if conn.up then [0, 0, 0, 4, 5] + Big32(ch.id) else [])
                        && ch.reader == Woken(old(ch.reader)) && ch.writer == Resumed(old(ch.writer))
    {
      hide WireBytes;
      first := ch.MarkClosed();
      if first {
        ch.BroadcastReader();
        ch.BroadcastWriter();
        RemoveChannel(ch.id);
        ch.SendClose();
        ch.closer := CDone;
      }
    }

    /** What closeAll does to one channel. Its writer is not woken. */
    twostate predicate TornDown(ch: Channel)
      reads ch
    {
      && ch.RxOf() == ChannelEnd.SetError(old(ch.RxOf()), Eof) && ch.TxOf() == old(ch.TxOf())
      && ch.rerr == Eof && ch.reader == Woken(old(ch.reader)) && ch.rb == old(ch.rb)
      && ch.status == old(ch.status) && ch.closer == old(ch.closer)
    }

    /** closeAll: every channel leaves the map with its reader told the end of file. */
    method CloseAll()
      requires Valid()
      modifies this`channels, channels.Values
      ensures channels == map[]
      ensures forall id :: id in old(channels) ==> TornDown(old(channels[id]))
    {
      hide ChannelEnd.SetError, Channel.RxOf, Channel.TxOf, Woken;
      ghost var all := channels;
      while channels != map[]
        invariant forall id :: id in channels ==> id in all && channels[id] == all[id] && unchanged(all[id])
        invariant forall id :: id in all && id !in channels ==> TornDown(all[id])
        decreases channels.Keys
      {
        var id :| id in channels;
        var ch := channels[id];
        channels := channels - {id};
        ch.SetError(Eof);
        assert TornDown(ch);
        assert forall x :: x in all && x != id ==> all[x] != ch;
      }
    }
  }
}
