/** Session set-up (relay/auth.go; relay/remoteserver.go:85-98; relay/remoteclient.go:107-119):
    what each side does is a function of the bytes it receives, and the two are put together
    over the two streams. */
module Handshake {
  import opened Basics
  import opened Bytes
  import opened Frames
  import T = Tunnels

  const AUTH_REQUEST: byte := 6
  const AUTH_RESPONSE: byte := 7
  const REGISTER: byte := 8

  /** What a side has written, what it has left unread, and what it ended with. */
  datatype Ended<T> = Ended(written: seq<byte>, unread: seq<byte>, result: Option<T>)

  function AuthRequest(token: seq<byte>): Frame {
    Frame(AUTH_REQUEST, Put16(|token| % T.UINT16) + token)
  }

  function AuthResponse(ok: bool): Frame {
    Frame(AUTH_RESPONSE, [if ok then 1 else 0])
  }

  /** AuthClient; `up` says that the connection takes what is written. */
  function ClientAuth(token: seq<byte>, input: seq<byte>, up: bool): Ended<()> {
    if !up || !Legal(AuthRequest(token)) then Ended([], input, None)
    else
      var request := Encode(AuthRequest(token));
      match Decode(input)
      case Failed(_, rest) => Ended(request, rest, None)
      case Got(f, rest) =>
        Ended(request, rest, if f.kind == AUTH_RESPONSE && |f.payload| >= 1 && f.payload[0] != 0 then Some(()) else None)
  }

  /** AuthServer. */
  function ServerAuth(token: seq<byte>, input: seq<byte>, up: bool): Ended<()> {
    match Decode(input)
    case Failed(_, rest) => Ended([], rest, None)
    case Got(f, rest) =>
      if f.kind != AUTH_REQUEST || |f.payload| < 2 || Get16(f.payload[..2]) != |f.payload| - 2 then Ended([], rest, None)
      else
        var ok := f.payload[2..] == token;
        Ended(if up then Encode(AuthResponse(ok)) else [], rest, if up && ok then Some(()) else None)
  }

  /** The first half of ClientSide. */
  function Authenticated(token: seq<byte>, input: seq<byte>, up: bool): Ended<()> {
    if token != [] then ClientAuth(token, input, up) else Ended([], input, Some(()))
  }

  /** connect, from the open connection to the multiplexer. */
  function ClientSide(token: seq<byte>, tunnels: seq<T.Tunnel>, input: seq<byte>, up: bool): Ended<()> {
    var auth := Authenticated(token, input, up);
    var register := Frame(REGISTER, T.Pack(tunnels));
    if auth.result.None? || !up || !Legal(register) then auth.(result := None)
    else Ended(auth.written + Encode(register), auth.unread, Some(()))
  }

  /** RegisterServer. */
  function ServerRegister(input: seq<byte>): Ended<seq<T.Tunnel>> {
    match Decode(input)
    case Failed(_, rest) => Ended([], rest, None)
    case Got(f, rest) =>
      if f.kind != REGISTER then Ended([], rest, None)
      else Ended([], rest, match T.Unpack(f.payload) case Ok(ts) => Some(ts) case Err(_) => None)
  }

  /** handleClient, from the open connection to the multiplexer. */
  function ServerSide(token: seq<byte>, input: seq<byte>, up: bool): Ended<seq<T.Tunnel>> {
    var auth := if token != [] then ServerAuth(token, input, up) else Ended([], input, Some(()));
    if auth.result.None? then Ended(auth.written, auth.unread, None)
    else
      var register := ServerRegister(auth.unread);
      Ended(auth.written, register.unread, register.result)
  }

  /** The parts of a request's payload in its frame. */
  lemma RequestOnBytes(s: seq<byte>)
    requires HasFrame(s)
    ensures var p := s[5..5 + U32(s, 0)];
            |p| >= 2 ==> Get16(p[..2]) == U16(s, 5) && p[2..] == s[7..5 + U32(s, 0)]
  {
    if U32(s, 0) >= 2 {
      Get16IsU16(s, 5);
      assert s[5..5 + U32(s, 0)][..2] == s[5..7];
    }
  }

  lemma ResponseBytes()
    ensures forall ok :: Encode(AuthResponse(ok)) == [0, 0, 0, 1, 7, if ok then 1 else 0]
  {
  }

  method AuthClient(c: Conn, token: seq<byte>) returns (ok: bool)
    modifies c`input, c`output
    ensures var e := ClientAuth(token, old(c.input), c.up);
            c.output == old(c.output) + e.written && c.input == e.unread && ok == e.result.Some?
    ensures if c.up && 2 + |token| <= 16777216
            then c.output == old(c.output) + (Big32(2 + |token|) + [6] + (Big16(|token| % 0x1_0000) + token))
            else !ok && c.output == old(c.output) && c.input == old(c.input)
    ensures c.up && 2 + |token| <= 16777216 ==>
              var s := old(c.input);
              ok <==> HasFrame(s) && U32(s, 0) >= 1 && s[4] == 7 && s[5] != 0
  {
    Put16IsBig(|token| % T.UINT16);
    ghost var e := ClientAuth(token, c.input, c.up);
    hide Put16, Big16, Big32, U32, Encode, Decode;
    ok := WriteFrame(c, AUTH_REQUEST, Put16(|token| % T.UINT16) + token);
    if !ok {
      return false;
    }
    var r := ReadFrame(c);
    if r.Err? {
      return false;
    }
    ok := r.value.kind == AUTH_RESPONSE && |r.value.payload| >= 1 && r.value.payload[0] != 0;
  }

  method AuthServer(c: Conn, token: seq<byte>) returns (ok: bool)
    modifies c`input, c`output
    ensures var e := ServerAuth(token, old(c.input), c.up);
            c.output == old(c.output) + e.written && c.input == e.unread && ok == e.result.Some?
    ensures var s := old(c.input);
            var asked := HasFrame(s) && s[4] == 6 && U32(s, 0) >= 2 && U16(s, 5) == U32(s, 0) - 2;
            && (ok <==> asked && c.up && s[7..5 + U32(s, 0)] == token)
            && c.output == old(c.output)
                           + if asked && c.up then [0, 0, 0, 1, 7, if s[7..5 + U32(s, 0)] == token then 1 else 0] else []
  {
    ghost var s := c.input;
    if HasFrame(s) {
      RequestOnBytes(s);
      ResponseBytes();
    }
    hide U16, U32, Get16, Encode, Decode;
    var r := ReadFrame(c);
    if r.Err? || r.value.kind != AUTH_REQUEST || |r.value.payload| < 2 {
      return false;
    }
    var p := r.value.payload;
    if Get16(p[..2]) != |p| - 2 {
      return false;
    }
    ok := p[2..] == token;
    var sent := WriteFrame(c, AUTH_RESPONSE, [if ok then 1 else 0]);
    ok := sent && ok;
  }

  lemma ClientSends(token: seq<byte>, tunnels: seq<T.Tunnel>, input: seq<byte>, up: bool, out: seq<byte>)
    ensures var auth, e := Authenticated(token, input, up), ClientSide(token, tunnels, input, up);
            var register := Frame(REGISTER, T.Pack(tunnels));
            if auth.result.Some? && up && Legal(register)
            then out + e.written == out + auth.written + Encode(register) && e.unread == auth.unread && e.result.Some?
            else e == auth.(result := None)
    ensures token == [] ==> out + Authenticated(token, input, up).written == out
  {
    hide Encode, T.Pack, ClientAuth;
  }

  method ClientHandshake(c: Conn, token: seq<byte>, tunnels: seq<T.Tunnel>) returns (ok: bool)
    modifies c`input, c`output
    ensures var e := ClientSide(token, tunnels, old(c.input), c.up);
            c.output == old(c.output) + e.written && c.input == e.unread && ok == e.result.Some?
    ensures token == [] ==>
              && (ok <==> c.up && |T.Pack(tunnels)| <= 16777216)
              && (ok ==> c.output == old(c.output) + (Big32(|T.Pack(tunnels)|) + [8] + T.Pack(tunnels)))
  {
    hide Encode, T.Pack, ClientAuth, ClientSide, AuthRequest, Big32;
    ghost var auth := Authenticated(token, c.input, c.up);
    ClientSends(token, tunnels, c.input, c.up, c.output);
    if token != [] {
      ok := AuthClient(c, token);
      if !ok {
        return false;
      }
    }
    var packed := T.PackTunnels(tunnels);
    ok := WriteFrame(c, REGISTER, packed);
  }

  method ServerHandshake(c: Conn, token: seq<byte>) returns (r: Option<seq<T.Tunnel>>)
    modifies c`input, c`output
    ensures var e := ServerSide(token, old(c.input), c.up);
            c.output == old(c.output) + e.written && c.input == e.unread && r == e.result
    ensures var s := old(c.input);
            token == [] && r.Some? ==>
              HasFrame(s) && s[4] == 8 && Ok(r.value) == T.Unpack(s[5..5 + U32(s, 0)]) && c.input == s[5 + U32(s, 0)..]
  {
    if token != [] {
      var ok := AuthServer(c, token);
      if !ok {
        return None;
      }
    }
    var f := ReadFrame(c);
    if f.Err? || f.value.kind != REGISTER {
      return None;
    }
    var ts := T.UnpackTunnels(f.value.payload);
    r := match ts case Ok(us) => Some(us) case Err(_) => None;
  }

  /** `up` and `down` are all the bytes that ever go from client to server and back: what each
      handshake writes, followed by the side's multiplexed frames if its handshake succeeds. */
  ghost predicate Session(clientToken: seq<byte>, serverToken: seq<byte>, tunnels: seq<T.Tunnel>,
                          up: seq<byte>, down: seq<byte>, clientFrames: seq<byte>, serverFrames: seq<byte>) {
    var c, s := ClientSide(clientToken, tunnels, down, true), ServerSide(serverToken, up, true);
    && up == c.written + (if c.result.Some? then clientFrames else [])
    && down == s.written + (if s.result.Some? then serverFrames else [])
  }

  lemma RequestIsRead(token: seq<byte>, serverToken: seq<byte>, rest: seq<byte>)
    requires Legal(AuthRequest(token))
    ensures var s := ServerAuth(serverToken, Encode(AuthRequest(token)) + rest, true);
            s.unread == rest && s.written == (if |token| < T.UINT16 then Encode(AuthResponse(token == serverToken)) else [])
            && (s.result.Some? <==> |token| < T.UINT16 && token == serverToken)
  {
    TokenPayload(token);
    hide AuthRequest, Encode, Decode, Get16;
    DecodeEncoded(AuthRequest(token), rest);
  }

  lemma TokenPayload(token: seq<byte>)
    ensures var f := AuthRequest(token);
            && f.kind == AUTH_REQUEST && |f.payload| == |token| + 2 && f.payload[2..] == token
            && Get16(f.payload[..2]) == |token| % T.UINT16
            && (|token| % T.UINT16 == |token| <==> |token| < T.UINT16)
  {
    RoundTrip16(|token| % T.UINT16);
    Pieces(Put16(|token| % T.UINT16), token, []);
    hide Put16, Get16;
  }

  lemma ResponseIsRead(token: seq<byte>, ok: bool, rest: seq<byte>)
    requires Legal(AuthRequest(token))
    ensures ClientAuth(token, Encode(AuthResponse(ok)) + rest, true) == Ended(Encode(AuthRequest(token)), rest, if ok then Some(()) else None)
  {
    hide Encode, Decode;
    DecodeEncoded(AuthResponse(ok), rest);
  }

  lemma RegisterIsRead(tunnels: seq<T.Tunnel>, rest: seq<byte>)
    requires Legal(Frame(REGISTER, T.Pack(tunnels))) && T.AllFit(tunnels)
    ensures ServerRegister(Encode(Frame(REGISTER, T.Pack(tunnels))) + rest) == Ended([], rest, Some(tunnels))
  {
    hide T.Pack, T.Unpack;
    DecodeEncoded(Frame(REGISTER, T.Pack(tunnels)), rest);
    T.PackRoundTrip(tunnels, []);
    assert T.Pack(tunnels) + [] == T.Pack(tunnels);
  }

  /** Both tokens set. */
  lemma TokensMeet(ct: seq<byte>, st: seq<byte>, tunnels: seq<T.Tunnel>,
                   up: seq<byte>, down: seq<byte>, cf: seq<byte>, sf: seq<byte>)
    requires Session(ct, st, tunnels, up, down, cf, sf) && Legal(AuthRequest(ct)) && ct != [] && st != []
    requires T.AllFit(tunnels) && Legal(Frame(REGISTER, T.Pack(tunnels)))
    ensures var c, s := ClientSide(ct, tunnels, down, true), ServerSide(st, up, true);
            && (s.result.Some? <==> ct == st && |ct| < T.UINT16)
            && (s.result.Some? ==> s == Ended(s.written, cf, Some(tunnels)) && c.result.Some? && c.unread == sf)
            && (c.result.Some? <==> s.result.Some?)
  {
    hide Encode, Decode, AuthRequest, ClientAuth, ServerAuth, ServerRegister, T.Pack, T.AllFit;
    var register := Frame(REGISTER, T.Pack(tunnels));
    var request := Encode(AuthRequest(ct));
    ClientWritesRequest(ct, down);
    var rest := up[|request|..];
    assert up == request + rest by {
      assert ClientSide(ct, tunnels, down, true).written[..|request|] == request;
    }
    RequestIsRead(ct, st, rest);
    if ct == st && |ct| < T.UINT16 {
      var tail := down[|Encode(AuthResponse(true))|..];
      assert down == Encode(AuthResponse(true)) + tail;
      ResponseIsRead(ct, true, tail);
      assert up == request + (Encode(register) + cf);
      assert rest == Encode(register) + cf;
      RegisterIsRead(tunnels, cf);
      assert tail == sf;
    } else if |ct| < T.UINT16 {
      assert down == Encode(AuthResponse(false)) + [];
      ResponseIsRead(ct, false, []);
    } else {
      assert down == [];
      NothingToRead(ct);
    }
  }

  lemma ClientWritesRequest(token: seq<byte>, input: seq<byte>)
    requires Legal(AuthRequest(token))
    ensures ClientAuth(token, input, true).written == Encode(AuthRequest(token))
  {
    hide Encode, Decode;
  }

  lemma NothingToRead(token: seq<byte>)
    ensures ClientAuth(token, [], true).result.None? && ServerAuth(token, [], true) == Ended([], [], None)
    ensures ServerRegister([]).result.None?
  {
  }

  /** A frame of another kind stops the server. */
  lemma WrongKind(token: seq<byte>, f: Frame, rest: seq<byte>)
    requires Legal(f)
    ensures f.kind != AUTH_REQUEST ==> ServerAuth(token, Encode(f) + rest, true) == Ended([], rest, None)
    ensures f.kind != REGISTER ==> ServerRegister(Encode(f) + rest).result.None?
  {
    hide Encode, Decode;
    DecodeEncoded(f, rest);
  }

  /** The server starts the multiplexer if and only if the tokens are equal (empty meaning none)
      and at most 65535 bytes long. It then has the client's tunnel list, and the first byte it
      leaves unread is the first byte of the client's multiplexed frames; and the other way
      round. A client with a token gets through exactly when the server does. */
  lemma HandshakeAgrees(ct: seq<byte>, st: seq<byte>, tunnels: seq<T.Tunnel>,
                        up: seq<byte>, down: seq<byte>, cf: seq<byte>, sf: seq<byte>)
    requires Session(ct, st, tunnels, up, down, cf, sf)
    requires T.AllFit(tunnels) && Legal(Frame(REGISTER, T.Pack(tunnels)))
    ensures var c, s := ClientSide(ct, tunnels, down, true), ServerSide(st, up, true);
            && (s.result.Some? <==> ct == st && |ct| < T.UINT16)
            && (s.result.Some? ==> s == Ended(s.written, cf, Some(tunnels)) && c.result.Some? && c.unread == sf)
            && (ct != [] ==> (c.result.Some? <==> s.result.Some?))
  {
    var register := Frame(REGISTER, T.Pack(tunnels));
    if ct != [] && !Legal(AuthRequest(ct)) {
      assert up == [];
      NothingToRead(st);
    } else if ct != [] && st != [] {
      TokensMeet(ct, st, tunnels, up, down, cf, sf);
    } else {
      hide Encode, Decode, AuthRequest, ClientAuth, ServerAuth, ServerRegister, T.Pack, T.AllFit;
      if ct == [] {
        assert up == Encode(register) + cf;
        if st == [] {
          RegisterIsRead(tunnels, cf);
        } else {
          WrongKind(st, register, cf);
        }
      } else {
        ClientWritesRequest(ct, down);
        var request := Encode(AuthRequest(ct));
        assert ClientSide(ct, tunnels, down, true).written[..|request|] == request;
        assert up == request + up[|request|..];
        KindOfRequest(ct);
        WrongKind(st, AuthRequest(ct), up[|request|..]);
        assert down == [];
        NothingToRead(ct);
      }
    }
  }

  lemma KindOfRequest(token: seq<byte>)
    ensures AuthRequest(token).kind == AUTH_REQUEST
  {
  }

  /** There is such a session for every two tokens, tunnel list and pair of frame streams. */
  lemma SessionHappens(ct: seq<byte>, st: seq<byte>, tunnels: seq<T.Tunnel>, cf: seq<byte>, sf: seq<byte>)
    returns (up: seq<byte>, down: seq<byte>)
    requires T.AllFit(tunnels) && Legal(Frame(REGISTER, T.Pack(tunnels)))
    ensures Session(ct, st, tunnels, up, down, cf, sf)
  {
    hide Encode, Decode, ClientAuth, ServerAuth, ServerRegister, AuthRequest, T.Pack, T.AllFit;
    var register := Encode(Frame(REGISTER, T.Pack(tunnels)));
    if ct != [] && !Legal(AuthRequest(ct)) {
      up, down := [], [];
      NothingToRead(st);
      TooLongToSend(ct);
    } else if ct == [] {
      up := register + cf;
      down := if st == [] then sf else [];
      RegisterIsRead(tunnels, cf);
      WrongKind(st, Frame(REGISTER, T.Pack(tunnels)), cf);
      assert [] + register == register;
    } else {
      up, down := SessionOfRequest(ct, st, tunnels, cf, sf);
    }
  }

  /** The same for a client with a token that it can send. */
  lemma SessionOfRequest(ct: seq<byte>, st: seq<byte>, tunnels: seq<T.Tunnel>, cf: seq<byte>, sf: seq<byte>)
    returns (up: seq<byte>, down: seq<byte>)
    requires T.AllFit(tunnels) && Legal(Frame(REGISTER, T.Pack(tunnels))) && ct != [] && Legal(AuthRequest(ct))
    ensures Session(ct, st, tunnels, up, down, cf, sf)
  {
    hide Encode, Decode, ClientAuth, ServerAuth, ServerRegister, AuthRequest, T.Pack, T.AllFit;
    var register, request := Encode(Frame(REGISTER, T.Pack(tunnels))), Encode(AuthRequest(ct));
    RequestIsRead(ct, st, register + cf);
    RequestIsRead(ct, st, []);
    KindOfRequest(ct);
    WrongKind(st, AuthRequest(ct), []);
    NothingToRead(ct);
    ClientWritesRequest(ct, []);
    assert request + [] == request;
    if ct == st && |ct| < T.UINT16 {
      up, down := request + register + cf, Encode(AuthResponse(true)) + sf;
      assert up == request + (register + cf);
      RegisterIsRead(tunnels, cf);
      ResponseIsRead(ct, true, sf);
    } else if st != [] && |ct| < T.UINT16 {
      up, down := request, Encode(AuthResponse(false));
      ResponseIsRead(ct, false, []);
      assert down + [] == down;
    } else {
      up, down := request, [];
    }
  }

  lemma TooLongToSend(token: seq<byte>)
    requires !Legal(AuthRequest(token))
    ensures ClientAuth(token, [], true) == Ended([], [], None)
  {
  }
}
