/**
 * The SOCKS5 wire format as the cdn2proxy client front end reads it
 * (RFC 1928, sections 3 to 6): the greeting with its method list, the
 * CONNECT request, and the two fixed replies.
 *
 * `ParseGreeting` and `ParseRequest` are the specifications of the
 * byte-at-a-time handlers in module Socks5Handler. Each returns what was
 * read and how many bytes the handler takes off the stream, on success and
 * on failure alike: a short read takes everything that is left, because
 * `io.ReadFull` keeps reading until end of stream.
 */
module Socks5 {
  import opened Text

  const Version: Byte := 5
  const CmdConnect: Byte := 1
  const AtypIPv4: Byte := 1
  const AtypDomain: Byte := 3
  const AtypIPv6: Byte := 4

  /** VER 5, METHOD 0 ("no authentication required"). */
  const NoAuthReply: seq<Byte> := [5, 0]

  /** VER 5, REP 0 (succeeded), RSV 0, ATYP 1, BND.ADDR 0.0.0.0, BND.PORT 0. */
  const SuccessReply: seq<Byte> := [5, 0, 0, 1, 0, 0, 0, 0, 0, 0]

  /** The step at which a session fails; each one ends the session. */
  datatype Error =
    | ShortGreeting      // fewer than 2 bytes for VER and NMETHODS
    | InvalidVersion     // greeting VER is not 5
    | ShortMethods       // fewer than NMETHODS method bytes
    | GreetingWrite      // the [5, 0] reply could not be written
    | ShortRequest       // fewer than 4 bytes for VER, CMD, RSV, ATYP
    | InvalidVerCmd      // request VER is not 5 or CMD is not CONNECT
    | ShortIPv4          // fewer than 4 address bytes
    | ShortHostLength    // no domain length byte
    | ShortHostname      // fewer domain bytes than the length byte says
    | IPv6Unsupported    // ATYP 4
    | InvalidAtyp        // any ATYP other than 1, 3 and 4
    | ShortPort          // fewer than 2 port bytes
    | ReplyWrite         // the success reply could not be written

  /** The outcome of reading one message: what was read, and how many bytes were taken off the stream. */
  datatype Parsed<T> =
    | Parsed(value: T, consumed: nat)
    | Failed(error: Error, consumed: nat)
  {
    /** The value a handler returns for this outcome. */
    function ToResult(): Result<T> {
      if Parsed? then Ok(value) else Err(error)
    }
  }

  /** What a handler returns: a value, or the step at which the session failed. */
  datatype Result<T> = Ok(value: T) | Err(error: Error)

  datatype Address =
    | IPv4(a: Byte, b: Byte, c: Byte, d: Byte)
    | Domain(name: seq<Byte>)

  /** A CONNECT request: where the client asks to go. It is only logged, never dialled. */
  datatype Request = Request(addr: Address, port: nat)

  /** What the wire format can carry: a 16-bit port and a domain name of at most 255 bytes. */
  predicate ValidRequest(r: Request) {
    r.port < 0x1_0000 && (r.addr.Domain? ==> |r.addr.name| < 256)
  }

  /**
   * The host part of the destination: the dotted quad, which holds no colon,
   * or the domain name verbatim. `DestinationNamesRequest` reads it back.
   */
  function Host(a: Address): (h: seq<Byte>)
    ensures a.IPv4? ==> Colon !in h
    ensures a.Domain? ==> h == a.name
  {
    match a
    case IPv4(a0, a1, a2, a3) => DottedQuad(a0, a1, a2, a3)
    case Domain(name) => name
  }

  /**
   * The `"host:port"` string the handler logs. It starts with the host, and
   * its last colon separates host and port; for an IPv4 request that colon
   * is the only one.
   */
  function Destination(r: Request): (d: seq<Byte>)
    ensures |Host(r.addr)| < |d| && d[..|Host(r.addr)|] == Host(r.addr)
    ensures LastIndexOf(d, Colon) == Some(|Host(r.addr)|)
    ensures r.addr.IPv4? ==> forall i :: 0 <= i < |d| && d[i] == Colon ==> i == |Host(r.addr)|
  {
    var host := Host(r.addr);
    var d := HostPort(host, r.port);
    assert forall i :: 0 <= i < |host| ==> d[i] == host[i];
    d
  }

  /** The greeting a client sends: VER, NMETHODS, then the method ids. */
  function EncodeGreeting(methods: seq<Byte>): seq<Byte>
    requires |methods| < 256
  {
    [Version, |methods|] + methods
  }

  function EncodeAddress(a: Address): seq<Byte>
    requires a.Domain? ==> |a.name| < 256
  {
    match a
    case IPv4(a0, a1, a2, a3) => [AtypIPv4, a0, a1, a2, a3]
    case Domain(name) => [AtypDomain, |name|] + name
  }

  /** The CONNECT request a client sends, with `rsv` in the reserved byte. */
  function EncodeRequest(r: Request, rsv: Byte): seq<Byte>
    requires ValidRequest(r)
  {
    [Version, CmdConnect, rsv] + EncodeAddress(r.addr) + PutUint16(r.port)
  }

  /**
   * Version identifier / method selection message (cdn2proxy.go:266-284).
   * Succeeds exactly when the stream starts with VER 5 and holds all
   * NMETHODS method bytes; the method list is returned, never inspected.
   */
  function ParseGreeting(s: seq<Byte>): (r: Parsed<seq<Byte>>)
    ensures r.consumed <= |s|
    ensures r.Parsed? <==> 2 <= |s| && s[0] == Version && 2 + s[1] as int <= |s|
    ensures r.Parsed? ==>
      2 <= |s| && |r.value| == s[1] as int && r.consumed == 2 + |r.value| <= |s|
      && s[..r.consumed] == EncodeGreeting(r.value)
  {
    if |s| < 2 then Failed(ShortGreeting, |s|)
    else if s[0] != Version then Failed(InvalidVersion, 2)
    else if |s| < 2 + s[1] as int then Failed(ShortMethods, |s|)
    else
      var n: int := s[1];
      assert s[..2 + n] == [s[0], s[1]] + s[2..2 + n];
      Parsed(s[2..2 + n], 2 + n)
  }

  /**
   * DST.ADDR for address type `atyp` (cdn2proxy.go:187-219), read from the
   * bytes `s` that follow the 4-byte request header. IPv4 takes 4 bytes; a
   * domain takes a length byte and that many name bytes; IPv6 and every
   * other type are rejected without reading anything.
   */
  function ParseAddress(atyp: Byte, s: seq<Byte>): (r: Parsed<Address>)
    ensures r.consumed <= |s|
    ensures r.Parsed? <==>
      (atyp == AtypIPv4 && 4 <= |s|) || (atyp == AtypDomain && 1 <= |s| && 1 + s[0] as int <= |s|)
    ensures r.Parsed? ==>
      && r.consumed <= |s|
      && (r.value.Domain? ==> |r.value.name| < 256)
      && [atyp] + s[..r.consumed] == EncodeAddress(r.value)
  {
    if atyp == AtypIPv4 then
      if |s| < 4 then Failed(ShortIPv4, |s|)
      else
        assert s[..4] == [s[0], s[1], s[2], s[3]];
        Parsed(IPv4(s[0], s[1], s[2], s[3]), 4)
    else if atyp == AtypDomain then
      if |s| < 1 then Failed(ShortHostLength, |s|)
      else
        var len: int := s[0];
        if |s| < 1 + len then Failed(ShortHostname, |s|)
        else
          assert s[..1 + len] == [s[0]] + s[1..1 + len];
          Parsed(Domain(s[1..1 + len]), 1 + len)
    else if atyp == AtypIPv6 then Failed(IPv6Unsupported, 0)
    else Failed(InvalidAtyp, 0)
  }

  /** DST.PORT (cdn2proxy.go:221-226): two bytes, network order. */
  function ParsePort(s: seq<Byte>): (r: Parsed<nat>)
    ensures r.consumed <= |s|
    ensures r.Parsed? <==> 2 <= |s|
    ensures r.Parsed? ==> r.consumed == 2 <= |s| && r.value < 0x1_0000 && s[..2] == PutUint16(r.value)
  {
    if |s| < 2 then Failed(ShortPort, |s|)
    else
      Uint16Bytes(s[0], s[1]);
      assert s[..2] == [s[0], s[1]];
      Parsed(BigEndianUint16(s[0], s[1]), 2)
  }

  /**
   * CONNECT request (cdn2proxy.go:175-226): the 4-byte header, the address
   * and the port. On success the bytes taken off the stream are exactly the
   * encoding of the request returned (with the reserved byte as it was),
   * and nothing after it.
   */
  function ParseRequest(s: seq<Byte>): (r: Parsed<Request>)
    ensures r.consumed <= |s|
    ensures r.Parsed? <==>
      && 4 <= |s| && s[0] == Version && s[1] == CmdConnect
      && ((s[3] == AtypIPv4 && 10 <= |s|) || (s[3] == AtypDomain && 5 <= |s| && 7 + s[4] as int <= |s|))
    ensures r.Parsed? ==>
      && 4 <= r.consumed <= |s| && ValidRequest(r.value)
      && s[..r.consumed] == EncodeRequest(r.value, s[2])
  {
    if |s| < 4 then Failed(ShortRequest, |s|)
    else if s[0] != Version || s[1] != CmdConnect then Failed(InvalidVerCmd, 4)
    else
      match ParseAddress(s[3], s[4..])
      case Failed(e, c) => Failed(e, 4 + c)
      case Parsed(addr, c) =>
        match ParsePort(s[4 + c..])
        case Failed(e, d) => Failed(e, 4 + c + d)
        case Parsed(port, d) =>
          assert s[..4 + c + d] == [s[0], s[1], s[2]] + ([s[3]] + s[4..][..c]) + s[4 + c..][..d];
          Parsed(Request(addr, port), 4 + c + d)
  }

  /**
   * Any greeting the client can send is accepted, whatever methods it
   * lists (even one that does not offer "no authentication"), and exactly
   * the greeting is consumed, never the bytes that follow it.
   */
  lemma GreetingRoundTrip(methods: seq<Byte>, rest: seq<Byte>)
    requires |methods| < 256
    ensures ParseGreeting(EncodeGreeting(methods) + rest) == Parsed(methods, 2 + |methods|)
  {
  }

  /**
   * Every request the wire format can carry is read back as itself, the
   * reserved byte is ignored, and exactly the request is consumed; the
   * bytes after it are left on the stream for the relay.
   */
  lemma RequestRoundTrip(req: Request, rsv: Byte, rest: seq<Byte>)
    requires ValidRequest(req)
    ensures ParseRequest(EncodeRequest(req, rsv) + rest) == Parsed(req, |EncodeRequest(req, rsv)|)
  {
    var addr, port := EncodeAddress(req.addr), PutUint16(req.port);
    var s := EncodeRequest(req, rsv) + rest;
    var c := |addr| - 1;
    assert s[3] == addr[0];
    assert s[4..] == addr[1..] + (port + rest);
    AddressRoundTrip(req.addr, port + rest);
    assert s[4 + c..] == port + rest;
    PortRoundTrip(req.port, rest);
  }

  /** Every address the format can carry is read back as itself, consuming exactly its own bytes. */
  lemma AddressRoundTrip(a: Address, rest: seq<Byte>)
    requires a.Domain? ==> |a.name| < 256
    ensures var e := EncodeAddress(a);
      ParseAddress(e[0], e[1..] + rest) == Parsed(a, |e| - 1)
  {
  }

  /** Every 16-bit port is read back as itself from its two big-endian bytes. */
  lemma PortRoundTrip(v: nat, rest: seq<Byte>)
    requires v < 0x1_0000
    ensures ParsePort(PutUint16(v) + rest) == Parsed(v, 2)
  {
  }

  /**
   * A client that sends a greeting, then a CONNECT request, then payload has
   * its greeting read first, then its request read from exactly where the
   * greeting ended, and its payload left untouched.
   */
  lemma HandshakeRoundTrip(methods: seq<Byte>, req: Request, rsv: Byte, payload: seq<Byte>)
    requires |methods| < 256 && ValidRequest(req)
    ensures var s := EncodeGreeting(methods) + EncodeRequest(req, rsv) + payload;
      var g := ParseGreeting(s);
      && g == Parsed(methods, 2 + |methods|)
      && ParseRequest(s[g.consumed..]) == Parsed(req, |EncodeRequest(req, rsv)|)
      && s[g.consumed + |EncodeRequest(req, rsv)|..] == payload
  {
    var greeting, request := EncodeGreeting(methods), EncodeRequest(req, rsv);
    var s := greeting + request + payload;
    assert s == greeting + (request + payload);
    GreetingRoundTrip(methods, request + payload);
    assert s[|greeting|..] == request + payload;
    RequestRoundTrip(req, rsv, payload);
    assert s[|greeting| + |request|..] == payload;
  }

  /**
   * A parsed request depends only on its own bytes: replacing whatever
   * follows it on the stream changes neither the request nor how much of
   * the stream it takes.
   */
  lemma RequestIgnoresTrailingBytes(s: seq<Byte>, t: seq<Byte>)
    requires ParseRequest(s).Parsed?
    ensures ParseRequest(s[..ParseRequest(s).consumed] + t) == ParseRequest(s)
  {
    var r := ParseRequest(s);
    RequestRoundTrip(r.value, s[2], t);
  }

  /** The same holds of a greeting. */
  lemma GreetingIgnoresTrailingBytes(s: seq<Byte>, t: seq<Byte>)
    requires ParseGreeting(s).Parsed?
    ensures ParseGreeting(s[..ParseGreeting(s).consumed] + t) == ParseGreeting(s)
  {
  }

  /** The reserved byte of a request is never looked at (cdn2proxy.go:181). */
  lemma ReservedByteIgnored(s: seq<Byte>, rsv: Byte)
    requires 3 <= |s|
    ensures ParseRequest(s[2 := rsv]) == ParseRequest(s)
  {
  }

  /**
   * A request whose VER is not 5 or whose CMD is not CONNECT fails on its
   * 4-byte header: no address byte is read.
   */
  lemma BadVerCmdReadsOnlyHeader(s: seq<Byte>)
    requires 4 <= |s| && (s[0] != Version || s[1] != CmdConnect)
    ensures ParseRequest(s) == Failed(InvalidVerCmd, 4)
  {
  }

  /** IPv6 and every unknown address type are rejected after the 4-byte header. */
  lemma UnsupportedAtypRejected(s: seq<Byte>)
    requires 4 <= |s| && s[0] == Version && s[1] == CmdConnect
    requires s[3] != AtypIPv4 && s[3] != AtypDomain
    ensures ParseRequest(s) == Failed(if s[3] == AtypIPv6 then IPv6Unsupported else InvalidAtyp, 4)
  {
  }

  /**
   * For an IPv4 request the destination is the dotted quad, a colon and the
   * big-endian port, and 4 + 4 + 2 bytes are consumed.
   */
  lemma IPv4Destination(s: seq<Byte>)
    requires 10 <= |s| && s[0] == Version && s[1] == CmdConnect && s[3] == AtypIPv4
    ensures ParseRequest(s).Parsed? && ParseRequest(s).consumed == 10
    ensures Destination(ParseRequest(s).value)
         == DottedQuad(s[4], s[5], s[6], s[7]) + [Colon] + Decimal(s[8] as int * 256 + s[9])
  {
  }

  /**
   * For a domain request of length byte L the destination is the L name
   * bytes verbatim, a colon and the port, and 4 + 1 + L + 2 bytes are consumed.
   */
  lemma DomainDestination(s: seq<Byte>)
    requires 5 <= |s| && s[0] == Version && s[1] == CmdConnect && s[3] == AtypDomain
    requires 7 + s[4] as int <= |s|
    ensures ParseRequest(s).Parsed? && ParseRequest(s).consumed == 7 + s[4] as int
    ensures Destination(ParseRequest(s).value)
         == s[5..5 + s[4] as int] + [Colon] + Decimal(s[5 + s[4] as int] as int * 256 + s[6 + s[4] as int])
  {
    var len: int := s[4];
    assert s[4..][1..1 + len] == s[5..5 + len];
    assert s[4 + 1 + len..][0] == s[5 + len] && s[4 + 1 + len..][1] == s[6 + len];
  }

  /**
   * The logged destination identifies the request: the host and port can be
   * read back from it.
   */
  lemma DestinationNamesRequest(r: Request)
    ensures SplitHostPort(Destination(r)) == Some((Host(r.addr), r.port))
    ensures r.addr.IPv4? ==> ParseDottedQuad(Host(r.addr)) == Some((r.addr.a, r.addr.b, r.addr.c, r.addr.d))
  {
    HostPortRoundTrip(Host(r.addr), r.port);
    if r.addr.IPv4? {
      DottedQuadRoundTrip(r.addr.a, r.addr.b, r.addr.c, r.addr.d);
    }
  }

  /** The ASCII bytes of a string literal. */
  function Ascii(s: string): (r: seq<Byte>)
    requires forall i :: 0 <= i < |s| ==> s[i] as int < 256
    ensures |r| == |s|
  {
    seq(|s|, i requires 0 <= i < |s| => s[i] as int)
  }

  /** IPv4 93.184.216.34, port bytes [0, 80]: a request of 10 bytes whose destination is "93.184.216.34:80". */
  lemma ExampleIPv4Request()
    ensures ParseRequest([5, 1, 0, 1, 93, 184, 216, 34, 0, 80]) == Parsed(Request(IPv4(93, 184, 216, 34), 80), 10)
  {
  }

  lemma ExampleIPv4Destination()
    ensures Destination(Request(IPv4(93, 184, 216, 34), 80)) == Ascii("93.184.216.34:80")
  {
    var text := [57, 51, 46, 49, 56, 52, 46, 50, 49, 54, 46, 51, 52, 58, 56, 48];
    ExampleIPv4Text();
    assert Ascii("93.184.216.34:80") == text;
  }

  lemma ExampleIPv4Text()
    ensures Destination(Request(IPv4(93, 184, 216, 34), 80))
         == [57, 51, 46, 49, 56, 52, 46, 50, 49, 54, 46, 51, 52, 58, 56, 48]
  {
    assert DottedQuad(93, 184, 216, 34) == [57, 51, 46, 49, 56, 52, 46, 50, 49, 54, 46, 51, 52] by {
      assert Decimal(93) == [57, 51] by { assert Decimal(9) == [57]; }
      assert Decimal(184) == [49, 56, 52] by { assert Decimal(18) == [49, 56] by { assert Decimal(1) == [49]; } }
      assert Decimal(216) == [50, 49, 54] by { assert Decimal(21) == [50, 49] by { assert Decimal(2) == [50]; } }
      assert Decimal(34) == [51, 52] by { assert Decimal(3) == [51]; }
    }
    assert Decimal(80) == [56, 48] by { assert Decimal(8) == [56]; }
  }

  /** Domain "example.com" (length byte 11), port bytes [1, 187]: an 18-byte request whose destination is "example.com:443". */
  lemma ExampleDomainRequest()
    ensures var s := [5, 1, 0, 3, 11] + Ascii("example.com") + [1, 187];
      ParseRequest(s) == Parsed(Request(Domain(Ascii("example.com")), 443), 18)
  {
    var req := Request(Domain(Ascii("example.com")), 443);
    assert PutUint16(443) == [1, 187];
    assert EncodeRequest(req, 0) == [5, 1, 0, 3, 11] + Ascii("example.com") + [1, 187];
    RequestRoundTrip(req, 0, []);
    assert EncodeRequest(req, 0) + [] == EncodeRequest(req, 0);
  }

  lemma ExampleDomainDestination()
    ensures Destination(Request(Domain(Ascii("example.com")), 443)) == Ascii("example.com:443")
  {
    assert Decimal(443) == [52, 52, 51] by { assert Decimal(44) == [52, 52] by { assert Decimal(4) == [52]; } }
    assert Ascii("example.com:443") == Ascii("example.com") + [Colon] + [52, 52, 51];
  }
}
