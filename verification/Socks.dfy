/** The server side of the SOCKS5 handshake (relay/socks5.go): sections 3 to 5 of RFC 1928 and
    section 2 of RFC 1929. */
module Socks {
  import opened Basics
  import opened Bytes

  const VERSION: byte := 5
  const CONNECT: byte := 1
  const IPV4: byte := 1
  const DOMAIN: byte := 3
  const IPV6: byte := 4
  const NO_AUTH: byte := 0
  const PASSWORD: byte := 2
  const NO_ACCEPTABLE: byte := 0xff

  datatype Refusal =
    | CutShort                  // the input ends within a message
    | CannotWrite               // a reply that has to arrive cannot be written
    | BadVersion | NoMethods | NoAcceptableMethod
    | BadLoginVersion | BadUserLength | BadPasswordLength | LoginFailed
    | BadRequestVersion | BadCommand | BadAddressType

  /** `raw` is the address type, the address and the port as they were sent; `host` is the address
      itself or the domain name. */
  datatype Target = Target(raw: seq<byte>, host: seq<byte>, port: nat)

  /** What has been written, what is left unread, and the result. */
  datatype Served<T> = Served(written: seq<byte>, unread: seq<byte>, result: Result<T, Refusal>)

  predicate NeedsLogin(user: seq<byte>, pass: seq<byte>) {
    user != [] || pass != []
  }

  function Choose(needsLogin: bool, methods: seq<byte>): byte {
    if !needsLogin then NO_AUTH else if PASSWORD in methods then PASSWORD else NO_ACCEPTABLE
  }

  /** What a write puts on a connection that is up, or not. */
  function Reply(up: bool, data: seq<byte>): seq<byte> {
    if up then data else []
  }

  function Greeting(needsLogin: bool, input: seq<byte>, up: bool): Served<byte> {
    if |input| < 2 then Served([], [], Err(CutShort))
    else if input[0] != VERSION then Served([], input[2..], Err(BadVersion))
    else
      var n := input[1];
      if n < 1 then Served([], input[2..], Err(NoMethods))
      else if |input| - 2 < n then Served([], [], Err(CutShort))
      else
        var chosen := Choose(needsLogin, input[2..2 + n]);
        Served(Reply(up, [VERSION, chosen]), input[2 + n..],
               if !up then Err(CannotWrite) else if chosen == NO_ACCEPTABLE then Err(NoAcceptableMethod) else Ok(chosen))
  }

  /** A length byte and as many bytes: the bytes, and what follows. None at a length of zero. */
  function Field(input: seq<byte>): Result<Option<(seq<byte>, seq<byte>)>, ()> {
    if |input| < 1 then Err(())
    else if input[0] == 0 then Ok(None)
    else if |input| - 1 < input[0] then Err(())
    else Ok(Some((input[1..1 + input[0]], input[1 + input[0]..])))
  }

  function Login(user: seq<byte>, pass: seq<byte>, input: seq<byte>, up: bool): Served<()> {
    if |input| < 2 then Served([], [], Err(CutShort))
    else if input[0] != 1 then Served(Reply(up, [1, 1]), input[2..], Err(BadLoginVersion))
    else
      match Field(input[1..])
      case Err(_) => Served([], [], Err(CutShort))
      case Ok(None) => Served(Reply(up, [1, 2]), input[2..], Err(BadUserLength))
      case Ok(Some((u, rest))) => LoginPassword(user, pass, u, rest, up)
  }

  function LoginPassword(user: seq<byte>, pass: seq<byte>, u: seq<byte>, input: seq<byte>, up: bool): Served<()> {
    match Field(input)
    case Err(_) => Served([], [], Err(CutShort))
    case Ok(None) => Served(Reply(up, [1, 2]), input[1..], Err(BadPasswordLength))
    case Ok(Some((p, rest))) =>
      if u == user && p == pass then Served(Reply(up, [1, 0]), rest, if up then Ok(()) else Err(CannotWrite))
      else Served(Reply(up, [1, 1]), rest, Err(LoginFailed))
  }

  /** The address: how many bytes of length it has in front, and how many bytes it is. */
  function Address(atyp: byte, input: seq<byte>): Result<(nat, nat), Refusal> {
    if atyp == IPV4 then Ok((0, 4))
    else if atyp == IPV6 then Ok((0, 16))
    else if atyp == DOMAIN then if |input| < 1 then Err(CutShort) else Ok((1, input[0]))
    else Err(BadAddressType)
  }

  function Request(input: seq<byte>): Served<Target> {
    if |input| < 4 then Served([], [], Err(CutShort))
    else if input[0] != VERSION then Served([], input[4..], Err(BadRequestVersion))
    else if input[1] != CONNECT then Served([], input[4..], Err(BadCommand))
    else Destination(input[3], input[4..])
  }

  function Destination(atyp: byte, input: seq<byte>): Served<Target> {
    match Address(atyp, input)
    case Err(e) => Served([], input, Err(e))
    case Ok((front, n)) =>
      var end := front + n;
      if |input| < end + 2 then Served([], [], Err(CutShort))
      else Served([], input[end + 2..], Ok(Target([atyp] + input[..end + 2], input[front..end], Get16(input[end..end + 2]))))
  }

  /** What `f` gives after `written` has gone out. */
  function After<T>(written: seq<byte>, s: Served<T>): Served<T> {
    Served(written + s.written, s.unread, s.result)
  }

  /** socksHandshake. */
  function Negotiate(user: seq<byte>, pass: seq<byte>, input: seq<byte>, up: bool): Served<Target> {
    var g := Greeting(NeedsLogin(user, pass), input, up);
    match g.result
    case Err(e) => Served(g.written, g.unread, Err(e))
    case Ok(chosen) =>
      After(g.written, if chosen == PASSWORD then LoginAndRequest(user, pass, g.unread, up) else Request(g.unread))
  }

  function LoginAndRequest(user: seq<byte>, pass: seq<byte>, input: seq<byte>, up: bool): Served<Target> {
    var l := Login(user, pass, input, up);
    match l.result
    case Err(e) => Served(l.written, l.unread, Err(e))
    case Ok(_) => After(l.written, Request(l.unread))
  }

  // The same, byte by byte of the input.

  /** A whole greeting: version 5, the number of methods, and the methods. */
  predicate WholeGreeting(input: seq<byte>) {
    |input| >= 2 && input[0] == 5 && input[1] > 0 && |input| >= 2 + input[1] as int
  }

  function MethodsOf(input: seq<byte>): seq<byte>
    requires WholeGreeting(input)
  {
    input[2..2 + input[1] as int]
  }

  predicate WrongLoginVersion(input: seq<byte>) {
    |input| >= 2 && input[0] != 1
  }

  /** The place of the length of the password. */
  function PassAt(input: seq<byte>): nat
    requires |input| >= 2
  {
    2 + input[1] as int
  }

  /** The length of the user name is zero, or it is not and that of the password is. */
  predicate ZeroLength(input: seq<byte>) {
    && |input| >= 2 && input[0] == 1
    && (input[1] == 0 || (|input| > PassAt(input) && input[PassAt(input)] == 0))
  }

  predicate WholeLogin(input: seq<byte>) {
    && |input| >= 2 && input[0] == 1 && input[1] > 0
    && |input| > PassAt(input) && input[PassAt(input)] > 0
    && |input| >= PassAt(input) + 1 + input[PassAt(input)] as int
  }

  predicate LoginMatches(input: seq<byte>, user: seq<byte>, pass: seq<byte>)
    requires WholeLogin(input)
  {
    var at := PassAt(input);
    input[2..at] == user && input[at + 1..at + 1 + input[at] as int] == pass
  }

  /** The place of the address in a request, after a length byte if it is a domain name. */
  function HostAt(input: seq<byte>): nat
    requires |input| >= 4
  {
    if input[3] == 3 then 5 else 4
  }

  predicate CommandOk(input: seq<byte>) {
    |input| >= 4 && input[0] == 5 && input[1] == 1
  }

  /** The place after the port: 4 bytes of address for type 1, 16 for type 4, and as many as the
      length byte says for type 3. */
  function RequestEnd(input: seq<byte>): nat
    requires |input| >= 5
  {
    if input[3] == 1 then 10 else if input[3] == 4 then 22 else 7 + input[4] as int
  }

  predicate WholeRequest(input: seq<byte>) {
    && CommandOk(input) && (input[3] == 1 || input[3] == 3 || input[3] == 4)
    && |input| >= 5 && |input| >= RequestEnd(input)
  }

  lemma LoginOnBytes(user: seq<byte>, pass: seq<byte>, input: seq<byte>, up: bool)
    ensures var s := Login(user, pass, input, up);
            if WrongLoginVersion(input) then s == Served(Reply(up, [1, 1]), input[2..], Err(BadLoginVersion))
            else if ZeroLength(input) then
              && s.written == Reply(up, [1, 2])
              && s.result == Err(if input[1] == 0 then BadUserLength else BadPasswordLength)
              && s.unread == (if input[1] == 0 then input[2..] else input[PassAt(input) + 1..])
            else if WholeLogin(input) then
              && s.written == Reply(up, [1, if LoginMatches(input, user, pass) then 0 else 1])
              && s.result == (if !LoginMatches(input, user, pass) then Err(LoginFailed) else if up then Ok(()) else Err(CannotWrite))
              && s.unread == input[PassAt(input) + 1 + input[PassAt(input)] as int..]
            else s == Served([], [], Err(CutShort))
  {
    if |input| >= 2 && input[0] == 1 && input[1] > 0 && |input| >= PassAt(input) {
      var tail, at := input[1..], PassAt(input);
      assert tail[1..1 + tail[0] as int] == input[2..at] && tail[1 + tail[0] as int..] == input[at..];
      PasswordOnBytes(input, at);
      hide Field;
    } else {
      assert |input| >= 2 ==> input[1..][0] == input[1];
    }
  }

  lemma PasswordOnBytes(input: seq<byte>, at: nat)
    requires at <= |input|
    ensures Field(input[at..]) ==
              if |input| == at then Err(())
              else if input[at] == 0 then Ok(None)
              else if |input| < at + 1 + input[at] as int then Err(())
              else Ok(Some((input[at + 1..at + 1 + input[at] as int], input[at + 1 + input[at] as int..])))
    ensures |input| > at ==> input[at..][1..] == input[at + 1..]
  {
    var tail := input[at..];
    if |input| > at && |input| >= at + 1 + input[at] as int {
      assert tail[1..1 + tail[0] as int] == input[at + 1..at + 1 + input[at] as int];
      assert tail[1 + tail[0] as int..] == input[at + 1 + input[at] as int..];
    }
  }

  lemma RequestOnBytes(input: seq<byte>)
    ensures var s := Request(input);
            && s.written == []
            && (s.result.Ok? <==> WholeRequest(input))
            && (s.result == Err(BadRequestVersion) <==> |input| >= 4 && input[0] != 5)
            && (s.result == Err(BadCommand) <==> |input| >= 4 && input[0] == 5 && input[1] != 1)
            && (s.result == Err(BadAddressType) <==> CommandOk(input) && input[3] != 1 && input[3] != 3 && input[3] != 4)
            && (s.result.Err? ==> s.result.error in {BadRequestVersion, BadCommand, BadAddressType, CutShort})
            && (WholeRequest(input) ==>
                  var end := RequestEnd(input);
                  && s.unread == input[end..]
                  && s.result.value == Target(input[3..end], input[HostAt(input)..end - 2], U16(input, end - 2)))
            && (s.result.Err? ==> s.unread == if s.result == Err(CutShort) then [] else input[4..])
  {
    if WholeRequest(input) {
      DestinationOnBytes(input, HostAt(input) - 4, RequestEnd(input) - 2);
    }
  }

  lemma DestinationOnBytes(input: seq<byte>, front: nat, end: nat)
    requires 4 + front <= end && end + 2 <= |input| && Address(input[3], input[4..]) == Ok((front, end - 4 - front))
    ensures Destination(input[3], input[4..]) ==
              Served([], input[end + 2..], Ok(Target(input[3..end + 2], input[4 + front..end], U16(input, end))))
  {
    var tail := input[4..];
    assert tail[end - 4..end - 2] == input[end..end + 2];
    Get16IsU16(input, end);
    hide Get16, U16, Address;
    assert tail[end - 2..] == input[end + 2..] && tail[front..end - 4] == input[4 + front..end];
    assert [input[3]] + tail[..end - 2] == input[3..end + 2];
  }

  /** The next `n` bytes, however they are split over reads. */
  method Take(c: Conn, n: nat) returns (r: Option<seq<byte>>)
    modifies c`input
    ensures r.Some? <==> n <= |old(c.input)|
    ensures r.Some? ==> r.value == old(c.input)[..n] && c.input == old(c.input)[n..]
    ensures r.None? ==> c.input == []
  {
    var buf := new byte[n];
    var failure := c.ReadFull(buf);
    r := if failure.Some? then None else Some(buf[..]);
  }

  /** The choice of the method, by a search through those offered. */
  method ChooseMethod(needsLogin: bool, methods: seq<byte>) returns (chosen: byte)
    ensures chosen == Choose(needsLogin, methods)
  {
    chosen := NO_AUTH;
    if needsLogin {
      chosen := NO_ACCEPTABLE;
      for i := 0 to |methods|
        invariant PASSWORD !in methods[..i] && chosen == NO_ACCEPTABLE
      {
        if methods[i] == PASSWORD {
          chosen := PASSWORD;
          break;
        }
      }
      assert methods[..|methods|] == methods;
    } else {
      for i := 0 to |methods|
        invariant chosen == NO_AUTH
      {
        if methods[i] == NO_AUTH {
          chosen := NO_AUTH;
          break;
        }
      }
    }
  }

  method ReadGreeting(c: Conn, needsLogin: bool) returns (r: Result<byte, Refusal>)
    modifies c`input, c`output
    ensures Served(c.output, c.input, r) == After(old(c.output), Greeting(needsLogin, old(c.input), c.up))
    ensures var input := old(c.input);
            && (r == Err(BadVersion) <==> |input| >= 2 && input[0] != 5)
            && (r == Err(NoMethods) <==> |input| >= 2 && input[0] == 5 && input[1] == 0)
            && (r == Err(CannotWrite) <==> WholeGreeting(input) && !c.up)
            && (r.Ok? <==> WholeGreeting(input) && c.up && (needsLogin ==> 2 in MethodsOf(input)))
            && (r.Ok? ==> r.value == if needsLogin then 2 else 0)
            && (r == Err(NoAcceptableMethod) <==> WholeGreeting(input) && c.up && needsLogin && 2 !in MethodsOf(input))
            && (r.Err? ==> r.error in {BadVersion, NoMethods, CannotWrite, NoAcceptableMethod, CutShort})
            && (WholeGreeting(input) ==> c.input == input[2 + input[1] as int..])
            && c.output == old(c.output) + (if WholeGreeting(input) && c.up then
                                              [5, if !needsLogin then 0 else if 2 in MethodsOf(input) then 2 else 255]
                                            else [])
  {
    ghost var input := c.input;
    var header := Take(c, 2);
    if header.None? {
      return Err(CutShort);
    }
    if header.value[0] != VERSION {
      return Err(BadVersion);
    }
    var n := header.value[1];
    if n < 1 {
      return Err(NoMethods);
    }
    var methods := Take(c, n);
    if methods.None? {
      return Err(CutShort);
    }
    assert methods.value == input[2..2 + n] && c.input == input[2 + n..];
    var chosen := ChooseMethod(needsLogin, methods.value);
    var sent := c.Write([VERSION, chosen]);
    if !sent {
      return Err(CannotWrite);
    }
    r := if chosen == NO_ACCEPTABLE then Err(NoAcceptableMethod) else Ok(chosen);
  }

  /** socksPasswordAuth. */
  method PasswordAuth(c: Conn, user: seq<byte>, pass: seq<byte>) returns (r: Result<(), Refusal>)
    modifies c`input, c`output
    ensures Served(c.output, c.input, r) == After(old(c.output), Login(user, pass, old(c.input), c.up))
    ensures var input := old(c.input);
            && (r.Ok? <==> c.up && WholeLogin(input) && LoginMatches(input, user, pass))
            && (r == Err(BadLoginVersion) <==> WrongLoginVersion(input))
            && (r == Err(BadUserLength) || r == Err(BadPasswordLength) <==> ZeroLength(input))
            && (r == Err(LoginFailed) <==> WholeLogin(input) && !LoginMatches(input, user, pass))
            && (r == Err(CutShort) <==> !WrongLoginVersion(input) && !ZeroLength(input) && !WholeLogin(input))
    ensures c.up ==>
              var input := old(c.input);
              && (c.output == old(c.output) + [1, 0] <==> r.Ok?)
              && (c.output == old(c.output) + [1, 2] <==> ZeroLength(input))
              && (c.output == old(c.output) + [1, 1] <==>
                    WrongLoginVersion(input) || (WholeLogin(input) && !LoginMatches(input, user, pass)))
              && (c.output == old(c.output) <==> r == Err(CutShort))
    ensures !c.up ==> c.output == old(c.output)
  {
    ghost var input, before := c.input, c.output;
    LoginOnBytes(user, pass, input, c.up);
    LastTwo(before);
    hide Login, LoginMatches;
    r := ReadLogin(c, user, pass);
  }

  lemma LastTwo(a: seq<byte>)
    ensures forall x: byte, y: byte :: a + [x, y] != a
    ensures forall x: byte, y: byte :: a + [1, x] == a + [1, y] ==> x == y
  {
    forall x: byte, y: byte | a + [1, x] == a + [1, y] ensures x == y {
      assert (a + [1, x])[|a| + 1] == x && (a + [1, y])[|a| + 1] == y;
    }
    forall x: byte, y: byte ensures a + [x, y] != a {
      assert |a + [x, y]| == |a| + 2;
    }
  }

  /** Its reads and writes. */
  method ReadLogin(c: Conn, user: seq<byte>, pass: seq<byte>) returns (r: Result<(), Refusal>)
    modifies c`input, c`output
    ensures Served(c.output, c.input, r) == After(old(c.output), Login(user, pass, old(c.input), c.up))
  {
    ghost var input := c.input;
    var header := Take(c, 2);
    if header.None? {
      return Err(CutShort);
    }
    if header.value[0] != 1 {
      var sent := c.Write([1, 1]);
      return Err(BadLoginVersion);
    }
    var userLen := header.value[1];
    assert input[1..][0] == userLen && |input[1..]| == |input| - 1;
    hide LoginPassword;
    if userLen < 1 {
      var sent := c.Write([1, 2]);
      return Err(BadUserLength);
    }
    var u := Take(c, userLen);
    if u.None? {
      return Err(CutShort);
    }
    Rejoined(input, 2, 2 + userLen as int);
    assert u.value == input[1..][1..1 + userLen] && c.input == input[1..][1 + userLen..];
    r := ReadPassword(c, user, pass, u.value);
  }

  /** The rest of socksPasswordAuth, after the user name. */
  method ReadPassword(c: Conn, user: seq<byte>, pass: seq<byte>, u: seq<byte>) returns (r: Result<(), Refusal>)
    modifies c`input, c`output
    ensures Served(c.output, c.input, r) == After(old(c.output), LoginPassword(user, pass, u, old(c.input), c.up))
  {
    ghost var input := c.input;
    var plen := Take(c, 1);
    if plen.None? {
      return Err(CutShort);
    }
    var passLen := plen.value[0];
    if passLen < 1 {
      var sent := c.Write([1, 2]);
      return Err(BadPasswordLength);
    }
    var p := Take(c, passLen);
    if p.None? {
      return Err(CutShort);
    }
    assert p.value == input[1..1 + passLen] && c.input == input[1 + passLen..];
    if u != user || p.value != pass {
      var sent := c.Write([1, 1]);
      return Err(LoginFailed);
    }
    var sent := c.Write([1, 0]);
    r := if sent then Ok(()) else Err(CannotWrite);
  }

  /** The address and port, with `raw` built by appends. */
  method ReadDestination(c: Conn, atyp: byte) returns (r: Result<Target, Refusal>)
    modifies c`input
    ensures Served(c.output, c.input, r) == After(c.output, Destination(atyp, old(c.input)))
  {
    hide Get16;
    ghost var input := c.input;
    var raw, n := [atyp], 0;
    if atyp == IPV4 {
      n := 4;
    } else if atyp == IPV6 {
      n := 16;
    } else if atyp == DOMAIN {
      var lenByte := Take(c, 1);
      if lenByte.None? {
        return Err(CutShort);
      }
      n := lenByte.value[0];
      raw := raw + lenByte.value;
    } else {
      return Err(BadAddressType);
    }
    var addr := Take(c, n);
    if addr.None? {
      return Err(CutShort);
    }
    raw := raw + addr.value;
    var port := Take(c, 2);
    if port.None? {
      return Err(CutShort);
    }
    raw := raw + port.value;
    ghost var front := if atyp == DOMAIN then 1 else 0;
    assert addr.value == input[front..front + n] && port.value == input[front + n..front + n + 2];
    assert raw == [atyp] + input[..front + n + 2];
    r := Ok(Target(raw, addr.value, Get16(port.value)));
  }

  method ReadRequest(c: Conn) returns (r: Result<Target, Refusal>)
    modifies c`input
    ensures Served(c.output, c.input, r) == After(c.output, Request(old(c.input)))
    ensures var input := old(c.input);
            && (r.Ok? <==> WholeRequest(input))
            && (r == Err(BadRequestVersion) <==> |input| >= 4 && input[0] != 5)
            && (r == Err(BadCommand) <==> |input| >= 4 && input[0] == 5 && input[1] != 1)
            && (r == Err(BadAddressType) <==> CommandOk(input) && input[3] != 1 && input[3] != 3 && input[3] != 4)
            && (r.Err? ==> r.error in {BadRequestVersion, BadCommand, BadAddressType, CutShort})
            && (r.Ok? ==>
                  var end := RequestEnd(input);
                  && c.input == input[end..]
                  && r.value == Target(input[3..end], input[HostAt(input)..end - 2], U16(input, end - 2)))
  {
    RequestOnBytes(c.input);
    hide Destination;
    var req := Take(c, 4);
    if req.None? {
      return Err(CutShort);
    }
    if req.value[0] != VERSION {
      return Err(BadRequestVersion);
    }
    if req.value[1] != CONNECT {
      return Err(BadCommand);
    }
    r := ReadDestination(c, req.value[3]);
  }

  method Handshake(c: Conn, user: seq<byte>, pass: seq<byte>) returns (r: Result<Target, Refusal>)
    modifies c`input, c`output
    ensures Served(c.output, c.input, r) == After(old(c.output), Negotiate(user, pass, old(c.input), c.up))
  {
    hide Greeting, Login, Request;
    var chosen := ReadGreeting(c, NeedsLogin(user, pass));
    if chosen.Err? {
      return Err(chosen.error);
    }
    if chosen.value == PASSWORD {
      var ok := PasswordAuth(c, user, pass);
      if ok.Err? {
        return Err(ok.error);
      }
    }
    r := ReadRequest(c);
  }

  /** Where a client asks to be connected. */
  datatype Host = V4(addr: seq<byte>) | V6(addr: seq<byte>) | Name(addr: seq<byte>)

  /** Everything a client sends before its data. `reserved` is not looked at. */
  datatype Client = Talk(methods: seq<byte>, login: Option<Credentials>, reserved: byte, host: Host, port: nat)
  datatype Credentials = Credentials(user: seq<byte>, pass: seq<byte>)

  predicate WellFormed(c: Client) {
    && 1 <= |c.methods| <= 255 && c.port < 0x1_0000
    && (c.login.Some? ==> 1 <= |c.login.value.user| <= 255 && 1 <= |c.login.value.pass| <= 255)
    && match c.host
       case V4(a) => |a| == 4
       case V6(a) => |a| == 16
       case Name(a) => |a| <= 255
  }

  function Counted(s: seq<byte>): seq<byte>
    requires |s| <= 255
  {
    [|s|] + s
  }

  function EncodeHost(h: Host): seq<byte>
    requires |h.addr| <= 255
  {
    match h
    case V4(a) => [IPV4] + a
    case V6(a) => [IPV6] + a
    case Name(a) => [DOMAIN] + Counted(a)
  }

  function EncodeLogin(login: Option<Credentials>): seq<byte>
    requires login.Some? ==> |login.value.user| <= 255 && |login.value.pass| <= 255
  {
    if login.None? then [] else [1] + Counted(login.value.user) + Counted(login.value.pass)
  }

  function EncodeRequest(c: Client): seq<byte>
    requires WellFormed(c)
  {
    [VERSION, CONNECT, c.reserved] + EncodeHost(c.host) + Put16(c.port)
  }

  function EncodeClient(c: Client): seq<byte>
    requires WellFormed(c)
  {
    [VERSION] + Counted(c.methods) + EncodeLogin(c.login) + EncodeRequest(c)
  }

  function TargetOf(c: Client): Target
    requires WellFormed(c)
  {
    Target(EncodeHost(c.host) + Put16(c.port), c.host.addr, c.port)
  }

  lemma FieldOfCounted(s: seq<byte>, rest: seq<byte>)
    requires 1 <= |s| <= 255
    ensures Field(Counted(s) + rest) == Ok(Some((s, rest)))
  {
    var input := Counted(s) + rest;
    assert input[1..1 + |s|] == s && input[1 + |s|..] == rest;
  }

  lemma CountedOfField(input: seq<byte>)
    requires Field(input).Ok? && Field(input).value.Some?
    ensures var (s, rest) := Field(input).value.value; 1 <= |s| <= 255 && input == Counted(s) + rest
  {
    var (s, rest) := Field(input).value.value;
    assert input == [input[0]] + s + rest;
  }

  lemma GreetingIsRead(needsLogin: bool, methods: seq<byte>, rest: seq<byte>)
    requires 1 <= |methods| <= 255
    ensures var chosen := Choose(needsLogin, methods);
            Greeting(needsLogin, [VERSION] + Counted(methods) + rest, true) ==
              Served([VERSION, chosen], rest, if chosen == NO_ACCEPTABLE then Err(NoAcceptableMethod) else Ok(chosen))
  {
    var input := [VERSION] + Counted(methods) + rest;
    assert input[2..2 + |methods|] == methods && input[2 + |methods|..] == rest;
  }

  lemma LoginIsRead(user: seq<byte>, pass: seq<byte>, c: Credentials, rest: seq<byte>)
    requires 1 <= |c.user| <= 255 && 1 <= |c.pass| <= 255
    ensures var input := EncodeLogin(Some(c)) + rest;
            Login(user, pass, input, true) ==
              if c.user == user && c.pass == pass then Served([1, 0], rest, Ok(())) else Served([1, 1], rest, Err(LoginFailed))
  {
    var input := EncodeLogin(Some(c)) + rest;
    assert input[1..] == Counted(c.user) + (Counted(c.pass) + rest);
    FieldOfCounted(c.user, Counted(c.pass) + rest);
    FieldOfCounted(c.pass, rest);
  }

  lemma DestinationIsRead(atyp: byte, host: seq<byte>, front: nat, port: seq<byte>, rest: seq<byte>)
    requires front <= |host| && |port| == 2 && Address(atyp, host + port + rest) == Ok((front, |host| - front))
    ensures Destination(atyp, host + port + rest) ==
              Served([], rest, Ok(Target([atyp] + (host + port), host[front..], Get16(port))))
  {
    hide Address, Get16;
    Pieces(host, port, rest);
    Pieces(host + port, rest, []);
    var input := host + port + rest;
    assert input[front..|host|] == host[front..];
  }

  lemma RequestIsRead(c: Client, rest: seq<byte>)
    requires WellFormed(c)
    ensures Request(EncodeRequest(c) + rest) == Served([], rest, Ok(TargetOf(c)))
  {
    var h, port := EncodeHost(c.host), Put16(c.port);
    var front := if c.host.Name? then 1 else 0;
    assert h[1..][front..] == c.host.addr && Get16(port) == c.port;
    DestinationIsRead(h[0], h[1..], front, port, rest);
    hide EncodeHost, Put16, Get16, Address, Destination;
    assert h == [h[0]] + h[1..];
    HeaderAndRest([VERSION, CONNECT, c.reserved], h[0], h[1..], port, rest);
  }

  lemma HeaderAndRest(first: seq<byte>, atyp: byte, host: seq<byte>, port: seq<byte>, rest: seq<byte>)
    requires |first| == 3
    ensures var input := first + ([atyp] + host) + port + rest;
            |input| >= 4 && input[..3] == first && input[3] == atyp && input[4..] == host + port + rest
    ensures [atyp] + (host + port) == ([atyp] + host) + port
  {
    var input := first + ([atyp] + host) + port + rest;
    assert input == (first + [atyp]) + (host + port + rest);
    Pieces(first + [atyp], host + port + rest, []);
  }

  /** A login and a request are never taken for each other: their versions differ. */
  lemma VersionsDiffer(user: seq<byte>, pass: seq<byte>, c: Client, rest: seq<byte>)
    requires WellFormed(c)
    ensures c.login.Some? ==> Request(EncodeLogin(c.login) + rest).result.Err?
    ensures Login(user, pass, EncodeRequest(c) + rest, true).result.Err?
  {
  }

  /** The client sends a login exactly when credentials are configured, and then offers the
      password method and sends those credentials. */
  predicate Suits(c: Client, user: seq<byte>, pass: seq<byte>) {
    && (c.login.Some? <==> user != [] || pass != [])
    && (c.login.Some? ==> 2 in c.methods && c.login.value == Credentials(user, pass))
  }

  lemma ServesWithLogin(user: seq<byte>, pass: seq<byte>, c: Client, rest: seq<byte>)
    requires WellFormed(c) && c.login.Some? && NeedsLogin(user, pass) && PASSWORD in c.methods
    ensures LoginAndRequest(user, pass, EncodeLogin(c.login) + (EncodeRequest(c) + rest), true) ==
              if c.login.value == Credentials(user, pass) then Served([1, 0], rest, Ok(TargetOf(c)))
              else Served([1, 1], EncodeRequest(c) + rest, Err(LoginFailed))
  {
    hide Login, Request, EncodeRequest, EncodeLogin, TargetOf;
    LoginIsRead(user, pass, c.login.value, EncodeRequest(c) + rest);
    RequestIsRead(c, rest);
  }

  lemma RefusesLoginAndRequest(user: seq<byte>, pass: seq<byte>, input: seq<byte>)
    requires Login(user, pass, input, true).result.Err?
    ensures LoginAndRequest(user, pass, input, true).result.Err?
  {
    hide Login, Request;
  }

  /** A well-formed client, whatever it sends next, is served if and only if it suits the server.
      It then gets its own address and port, and the first byte left unread is the first byte that
      it sends after the handshake. */
  lemma HandshakeServes(user: seq<byte>, pass: seq<byte>, c: Client, rest: seq<byte>)
    requires WellFormed(c)
    ensures var s := Negotiate(user, pass, EncodeClient(c) + rest, true);
            && (s.result.Ok? <==> Suits(c, user, pass))
            && (s.result.Ok? ==>
                  s == Served(if c.login.Some? then [5, 2, 1, 0] else [5, 0], rest, Ok(TargetOf(c))))
  {
    hide EncodeClient, EncodeRequest, TargetOf, Negotiate, LoginAndRequest, Request, Counted, EncodeLogin;
    var tail := EncodeRequest(c) + rest;
    ClientParts(c, rest);
    AfterGreeting(user, pass, c.methods, EncodeLogin(c.login) + tail);
    if c.login.Some? {
      VersionsDiffer(user, pass, c, tail);
      if NeedsLogin(user, pass) && PASSWORD in c.methods {
        ServesWithLogin(user, pass, c, rest);
      }
    } else {
      NoLogin();
      assert [] + tail == tail;
      VersionsDiffer(user, pass, c, rest);
      RequestIsRead(c, rest);
      if NeedsLogin(user, pass) {
        RefusesLoginAndRequest(user, pass, tail);
      }
    }
  }

  lemma ClientParts(c: Client, rest: seq<byte>)
    requires WellFormed(c)
    ensures EncodeClient(c) + rest == [VERSION] + Counted(c.methods) + (EncodeLogin(c.login) + (EncodeRequest(c) + rest))
  {
    hide EncodeRequest, EncodeLogin;
    Regroup([VERSION] + Counted(c.methods), EncodeLogin(c.login), EncodeRequest(c), rest);
    hide Counted;
  }

  lemma AfterGreeting(user: seq<byte>, pass: seq<byte>, methods: seq<byte>, rest: seq<byte>)
    requires 1 <= |methods| <= 255
    ensures Negotiate(user, pass, [VERSION] + Counted(methods) + rest, true) ==
              if !NeedsLogin(user, pass) then After([VERSION, NO_AUTH], Request(rest))
              else if PASSWORD in methods then After([VERSION, PASSWORD], LoginAndRequest(user, pass, rest, true))
              else Served([VERSION, NO_ACCEPTABLE], rest, Err(NoAcceptableMethod))
  {
    hide Request, LoginAndRequest, Greeting;
    GreetingIsRead(NeedsLogin(user, pass), methods, rest);
  }

  /** What was read as a greeting is the encoding of the methods offered. */
  lemma GreetingIsEncoded(needsLogin: bool, input: seq<byte>) returns (methods: seq<byte>)
    requires Greeting(needsLogin, input, true).result.Ok?
    ensures 1 <= |methods| <= 255 && input == [VERSION] + Counted(methods) + Greeting(needsLogin, input, true).unread
    ensures Greeting(needsLogin, input, true).result.value == (if needsLogin then PASSWORD else NO_AUTH)
  {
    methods := input[2..2 + input[1]];
    assert input == input[..2] + methods + input[2 + input[1]..];
  }

  lemma Regroup(a: seq<byte>, b: seq<byte>, c: seq<byte>, d: seq<byte>)
    ensures a + (b + (c + d)) == a + b + c + d && a + (b + c + d) == a + b + c + d
  {
  }

  lemma LoginIsEncoded(user: seq<byte>, pass: seq<byte>, input: seq<byte>)
    requires Login(user, pass, input, true).result.Ok?
    ensures 1 <= |user| <= 255 && 1 <= |pass| <= 255
    ensures input == EncodeLogin(Some(Credentials(user, pass))) + Login(user, pass, input, true).unread
    ensures Login(user, pass, input, true).written == [1, 0]
  {
    CountedOfField(input[1..]);
    var (u, rest) := Field(input[1..]).value.value;
    CountedOfField(rest);
    var (p, rest') := Field(rest).value.value;
    hide Field;
    assert input == [1] + input[1..];
    Regroup([1], Counted(u), Counted(p), rest');
  }

  /** The address bytes, the port bytes and the rest of what was read. */
  lemma DestinationParts(atyp: byte, input: seq<byte>) returns (host: seq<byte>, front: nat, port: seq<byte>)
    requires Destination(atyp, input).result.Ok?
    ensures front <= |host| && |port| == 2 && Address(atyp, input) == Ok((front, |host| - front)) && host <= input
    ensures input == host + port + Destination(atyp, input).unread && Destination(atyp, input).written == []
    ensures Destination(atyp, input).result == Ok(Target([atyp] + (host + port), host[front..], Get16(port)))
  {
    front := Address(atyp, input).value.0;
    var end := front + Address(atyp, input).value.1;
    hide Address, Get16;
    host, port := input[..end], input[end..end + 2];
    Rejoined(input, end, end + 2);
    assert host[front..] == input[front..end];
  }

  lemma HostOfBytes(atyp: byte, input: seq<byte>, host: seq<byte>, front: nat) returns (h: Host)
    requires Address(atyp, input) == Ok((front, |host| - front)) && front <= |host| && host <= input
    ensures match h case V4(a) => |a| == 4 case V6(a) => |a| == 16 case Name(a) => |a| <= 255
    ensures EncodeHost(h) == [atyp] + host && h.addr == host[front..]
  {
    var a := host[front..];
    h := if atyp == IPV4 then V4(a) else if atyp == IPV6 then V6(a) else Name(a);
    assert host == host[..front] + a;
  }

  lemma HostIsEncoded(atyp: byte, input: seq<byte>) returns (h: Host)
    requires Destination(atyp, input).result.Ok?
    ensures match h case V4(a) => |a| == 4 case V6(a) => |a| == 16 case Name(a) => |a| <= 255
    ensures var s := Destination(atyp, input);
            && s.result.value.port < 0x1_0000 && s.written == []
            && [atyp] + input == EncodeHost(h) + Put16(s.result.value.port) + s.unread
            && s.result.value == Target(EncodeHost(h) + Put16(s.result.value.port), h.addr, s.result.value.port)
  {
    var host, front, port := DestinationParts(atyp, input);
    h := HostOfBytes(atyp, input, host, front);
    assert Put16(Get16(port)) == port && Get16(port) < 0x1_0000;
    var rest := Destination(atyp, input).unread;
    hide Put16, Get16, Destination, Address, EncodeHost;
    Regroup([atyp], host, port, rest);
    assert [atyp] + (host + port) == [atyp] + host + port;
  }

  lemma RequestIsEncoded(methods: seq<byte>, login: Option<Credentials>, input: seq<byte>) returns (c: Client)
    requires Request(input).result.Ok? && 1 <= |methods| <= 255
    requires login.Some? ==> 1 <= |login.value.user| <= 255 && 1 <= |login.value.pass| <= 255
    ensures WellFormed(c) && c.methods == methods && c.login == login && Request(input).written == []
    ensures input == EncodeRequest(c) + Request(input).unread && Request(input).result == Ok(TargetOf(c))
  {
    hide Destination, EncodeHost, Put16;
    var front, atyp, body := input[..3], input[3], input[4..];
    var s := Destination(atyp, body);
    assert Request(input) == s && front == [VERSION, CONNECT, input[2]];
    assert input == front + ([atyp] + body);
    hide Request;
    var h := HostIsEncoded(atyp, body);
    c := Talk(methods, login, input[2], h, s.result.value.port);
    Regroup(front, EncodeHost(h), Put16(c.port), s.unread);
  }

  /** The other direction: whatever is served is the encoding of a well-formed client, which sent a
      login if and only if credentials are configured. So, with credentials configured, only a
      client that offers the password method and sends both of them is served. */
  lemma ServedIsEncoded(user: seq<byte>, pass: seq<byte>, input: seq<byte>) returns (c: Client)
    requires Negotiate(user, pass, input, true).result.Ok?
    ensures WellFormed(c) && (c.login.Some? <==> user != [] || pass != [])
    ensures input == EncodeClient(c) + Negotiate(user, pass, input, true).unread
    ensures Negotiate(user, pass, input, true).result == Ok(TargetOf(c))
    ensures c.login.Some? ==> 2 in c.methods && c.login == Some(Credentials(user, pass))
  {
    var needsLogin := NeedsLogin(user, pass);
    var g := Greeting(needsLogin, input, true);
    var methods := GreetingIsEncoded(needsLogin, input);
    hide Greeting, Login, Request, EncodeRequest, EncodeLogin;
    if needsLogin {
      LoginIsEncoded(user, pass, g.unread);
      var l := Login(user, pass, g.unread, true);
      c := RequestIsEncoded(methods, Some(Credentials(user, pass)), l.unread);
    } else {
      c := RequestIsEncoded(methods, None, g.unread);
      NoLogin();
    }
    var unread := Negotiate(user, pass, input, true).unread;
    assert EncodeLogin(c.login) + (EncodeRequest(c) + unread) == g.unread;
    hide Counted, Negotiate;
    Regroup([VERSION] + Counted(methods), EncodeLogin(c.login), EncodeRequest(c), unread);
    HandshakeServes(user, pass, c, unread);
  }

  lemma NoLogin()
    ensures EncodeLogin(None) == []
  {
  }

  /** Some client can be served if and only if no credentials are configured, or both the user name
      and the password have 1 to 255 bytes. */
  lemma CanBeServed(user: seq<byte>, pass: seq<byte>)
    ensures (exists input :: Negotiate(user, pass, input, true).result.Ok?) <==>
              (user == [] && pass == []) || (1 <= |user| <= 255 && 1 <= |pass| <= 255)
  {
    hide Negotiate, EncodeClient;
    if !NeedsLogin(user, pass) || (1 <= |user| <= 255 && 1 <= |pass| <= 255) {
      var login := if NeedsLogin(user, pass) then Some(Credentials(user, pass)) else None;
      var c := Talk([PASSWORD], login, 0, Name([]), 0);
      HandshakeServes(user, pass, c, []);
    }
    if input :| Negotiate(user, pass, input, true).result.Ok? {
      var c := ServedIsEncoded(user, pass, input);
    }
  }
}
