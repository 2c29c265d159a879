/**
 * The SOCKS5 front end of the tunnel client: the no-authentication
 * greeting (`Socks5Auth`), the CONNECT request with its synthetic success
 * reply (the parse block of `handleConn`), and the two in sequence.
 *
 * Each method works on the connection the way the Go code does, one
 * `io.ReadFull` into a reused 256-byte buffer at a time, and is proved to
 * take off the stream, return and write exactly what the pure
 * specifications in module Socks5 say.
 */
module Socks5Handler {
  import opened Text
  import opened Socks5
  import opened Socks5Conn

  /** Size of the scratch buffer both Go functions allocate. */
  const BufferSize := 256

  /**
   * Method negotiation (cdn2proxy.go:266-293). `None` is Go's nil error.
   * A greeting `ParseGreeting` rejects writes nothing; an accepted one is
   * answered with [5, 0] whatever methods it offered.
   */
  method Socks5Auth(client: Conn) returns (err: Option<Error>)
    requires client.Valid()
    modifies client
    ensures client.Valid()
    ensures var g := ParseGreeting(old(client.Remaining()));
      && client.pos == old(client.pos) + g.consumed
      && (g.Failed? ==> err == Some(g.error) && client.output == old(client.output))
      && (g.Parsed? && client.writeFails ==> err == Some(GreetingWrite) && client.output == old(client.output))
      && (g.Parsed? && !client.writeFails ==> err == None && client.output == old(client.output) + NoAuthReply)
  {
    ghost var s := client.Remaining();
    var buf := new Byte[BufferSize];

    // read VER and NMETHODS
    var n := client.ReadFull(buf, 2);
    if n != 2 {
      return Some(ShortGreeting);
    }
    var ver, nMethods := buf[0], buf[1];
    assert ver == s[0] && nMethods == s[1];
    if ver != Version {
      return Some(InvalidVersion);
    }

    // read the method ids, which are never looked at
    n := client.ReadFull(buf, nMethods);
    if n != nMethods {
      return Some(ShortMethods);
    }

    // no authentication
    var ok := client.Write(NoAuthReply);
    if !ok {
      return Some(GreetingWrite);
    }
    return None;
  }

  /**
   * The `switch atyp` of `handleConn` (cdn2proxy.go:187-219): reads DST.ADDR
   * into the reused buffer `buf`. The domain length byte is at most 255, so
   * every read fits in the 256-byte buffer.
   */
  method ReadAddress(conn: Conn, buf: array<Byte>, atyp: Byte) returns (r: Result<Address>)
    requires conn.Valid() && buf.Length == BufferSize
    modifies conn, buf
    ensures conn.Valid()
    ensures var p := ParseAddress(atyp, old(conn.Remaining()));
      conn.pos == old(conn.pos) + p.consumed && r == p.ToResult() && conn.output == old(conn.output)
  {
    ghost var s := conn.Remaining();
    match atyp {
      case 1 =>
        var n := conn.ReadFull(buf, 4);
        if n != 4 {
          return Err(ShortIPv4);
        }
        assert buf[..4] == s[..4];
        r := Ok(IPv4(buf[0], buf[1], buf[2], buf[3]));
      case 3 =>
        var n := conn.ReadFull(buf, 1);
        if n != 1 {
          return Err(ShortHostLength);
        }
        var addrLen: nat := buf[0];
        assert addrLen == s[0] && conn.Remaining() == s[1..];
        n := conn.ReadFull(buf, addrLen);
        if n != addrLen {
          return Err(ShortHostname);
        }
        assert buf[..addrLen] == s[1..1 + addrLen];
        r := Ok(Domain(buf[..addrLen]));
      case 4 =>
        r := Err(IPv6Unsupported);
      case _ =>
        r := Err(InvalidAtyp);
    }
  }

  /** DST.PORT (cdn2proxy.go:221-226): two bytes read into `buf`, decoded big-endian. */
  method ReadPort(conn: Conn, buf: array<Byte>) returns (r: Result<nat>)
    requires conn.Valid() && buf.Length == BufferSize
    modifies conn, buf
    ensures conn.Valid()
    ensures var p := ParsePort(old(conn.Remaining()));
      conn.pos == old(conn.pos) + p.consumed && r == p.ToResult() && conn.output == old(conn.output)
  {
    ghost var s := conn.Remaining();
    var n := conn.ReadFull(buf, 2);
    if n != 2 {
      return Err(ShortPort);
    }
    assert buf[0] == s[0] && buf[1] == s[1];
    r := Ok(BigEndianUint16(buf[0], buf[1]));
  }

  /**
   * The request-parse and reply block of `handleConn` (cdn2proxy.go:173-237),
   * as a method of its own. On success it returns the `"host:port"`
   * destination it logs; a request `ParseRequest` rejects writes nothing,
   * and an accepted one is answered with the fixed 10-byte success reply
   * whatever destination it names.
   */
  method HandleRequest(conn: Conn) returns (r: Result<seq<Byte>>)
    requires conn.Valid()
    modifies conn
    ensures conn.Valid()
    ensures var p := ParseRequest(old(conn.Remaining()));
      && conn.pos == old(conn.pos) + p.consumed
      && (p.Failed? ==> r == Err(p.error) && conn.output == old(conn.output))
      && (p.Parsed? && conn.writeFails ==> r == Err(ReplyWrite) && conn.output == old(conn.output))
      && (p.Parsed? && !conn.writeFails ==>
            r == Ok(Destination(p.value)) && conn.output == old(conn.output) + SuccessReply)
  {
    ghost var s := conn.Remaining();
    var buf := new Byte[BufferSize];

    var n := conn.ReadFull(buf, 4);
    if n != 4 {
      return Err(ShortRequest);
    }
    var ver, cmd, atyp := buf[0], buf[1], buf[3];
    assert ver == s[0] && cmd == s[1] && atyp == s[3];
    if ver != Version || cmd != CmdConnect {
      return Err(InvalidVerCmd);
    }

    assert conn.Remaining() == s[4..];
    var addr := ReadAddress(conn, buf, atyp);
    if addr.Err? {
      return Err(addr.error);
    }
    ghost var c := ParseAddress(atyp, s[4..]).consumed;
    assert conn.Remaining() == s[4 + c..];

    var port := ReadPort(conn, buf);
    if port.Err? {
      return Err(port.error);
    }

    // the destination is only logged, never dialled
    var dest := HostPort(Host(addr.value), port.value);

    var ok := conn.Write(SuccessReply);
    if !ok {
      return Err(ReplyWrite);
    }
    return Ok(dest);
  }

  /**
   * The SOCKS5 part of `handleConn` (cdn2proxy.go:168-237): greeting, then
   * request. A failed greeting ends the session before any request byte is
   * read. On success the client has received exactly [5, 0] followed by
   * the 10-byte success reply, and the bytes after the request stay on the
   * stream for the relay.
   */
  method HandleConn(conn: Conn) returns (r: Result<seq<Byte>>)
    requires conn.Valid()
    modifies conn
    ensures conn.Valid()
    ensures var s := old(conn.Remaining());
      var g := ParseGreeting(s);
      && (g.Failed? ==>
            r == Err(g.error) && conn.pos == old(conn.pos) + g.consumed && conn.output == old(conn.output))
      && (g.Parsed? && conn.writeFails ==>
            r == Err(GreetingWrite) && conn.pos == old(conn.pos) + g.consumed && conn.output == old(conn.output))
      && (g.Parsed? && !conn.writeFails ==>
            var p := ParseRequest(s[g.consumed..]);
            && conn.pos == old(conn.pos) + g.consumed + p.consumed
            && (p.Failed? ==> r == Err(p.error) && conn.output == old(conn.output) + NoAuthReply)
            && (p.Parsed? ==>
                  r == Ok(Destination(p.value)) && conn.output == old(conn.output) + NoAuthReply + SuccessReply))
  {
    ghost var s := conn.Remaining();
    ghost var out := conn.output;
    var err := Socks5Auth(conn);
    if err.Some? {
      return Err(err.value);
    }
    ghost var g := ParseGreeting(s).consumed;
    assert conn.Remaining() == s[g..] && conn.output == out + NoAuthReply;
    r := HandleRequest(conn);
  }

  /**
   * A well-behaved client, run through `HandleConn` (cdn2proxy.go:168-237):
   * whatever methods it offers and whatever destination it asks for, it gets
   * back exactly [5, 0] and the fixed success reply, the handler returns the
   * destination it asked for, and the payload it sent after the request is
   * left on the stream for the relay.
   */
  method ClientSession(methods: seq<Byte>, req: Request, rsv: Byte, payload: seq<Byte>)
    returns (r: Result<seq<Byte>>, written: seq<Byte>, left: seq<Byte>)
    requires |methods| < 256 && ValidRequest(req)
    ensures r == Ok(Destination(req))
    ensures written == NoAuthReply + SuccessReply
    ensures left == payload
  {
    var conn := new Conn(EncodeGreeting(methods) + EncodeRequest(req, rsv) + payload, false);
    HandshakeRoundTrip(methods, req, rsv, payload);
    r := HandleConn(conn);
    written, left := conn.output, conn.Remaining();
  }
}
