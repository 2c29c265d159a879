# cdn2proxy SOCKS5 front end, in Dafny

cdn2proxy carries a TCP byte stream through a WebSocket connection. Its
tunnel client accepts local connections on a SOCKS5 listener. For each one
it runs a minimal SOCKS5 handshake (RFC 1928) before relaying raw bytes:

1. **Method negotiation** (`Socks5Auth`). It reads VER and NMETHODS and
   then the NMETHODS method ids, which it throws away. It answers
   `[0x05, 0x00]` ("no authentication required"). Unlike section 3 of
   RFC 1928, it never checks that method 0x00 was offered, and it never
   sends the 0xFF "no acceptable methods" reply.
2. **CONNECT request** (inlined in `handleConn`). It reads the 4-byte
   header VER/CMD/RSV/ATYP and demands VER 5 and CMD 1. It ignores RSV.
   It then reads an IPv4 address (ATYP 1, rendered as a dotted quad) or a
   length-prefixed domain name (ATYP 3, kept verbatim). ATYP 4 and every
   other type are refused. Last come two big-endian port bytes. It builds
   the `"host:port"` destination, but only logs it: the tunnel always
   leads to the relay server's single fixed backend.
3. **Synthetic reply**. It writes the fixed 10-byte success reply
   `[5, 0, 0, 1, 0, 0, 0, 0, 0, 0]`, reporting BND.ADDR/BND.PORT as
   0.0.0.0:0, whatever the destination was.

The first failure of any kind ends the session.

The project has four modules:

- `Text` (text.dfy) covers the byte strings the handler formats. `Decimal`
  is Go's `%d`. `DottedQuad` is the IPv4 rendering. `HostPort` is
  `"%s:%d"`. `BigEndianUint16` is `binary.BigEndian.Uint16`. Each comes
  with its inverse and a round-trip lemma.
- `Socks5` (socks5.dfy) is the wire format as pure functions.
  `ParseGreeting` and `ParseRequest` take the bytes a client sends. They
  return what was read and how many bytes the handler takes off the
  stream, on failure too. A short read takes everything left, because
  `io.ReadFull` reads until end of stream. The encoders `EncodeGreeting`
  and `EncodeRequest` are what a client sends. The module also holds the
  round-trip, prefix and rejection lemmas.
- `Socks5Conn` (conn.dfy) is the local connection: a class holding the
  client's bytes, a read cursor and the bytes written back. Its methods are
  `ReadFull` (Go's `io.ReadFull` into a buffer) and `Write`.
- `Socks5Handler` (handler.dfy) holds the handler as the Go code runs it:
  one `io.ReadFull` at a time into a reused 256-element `array<Byte>`.
  Each method is proved to consume, return and write exactly what the pure
  specifications say. The parse block of `handleConn` is a method of its
  own (`HandleRequest`), and its `switch atyp` and port read are the
  methods `ReadAddress` and `ReadPort`. `HandleConn` runs the greeting,
  then the request, as `handleConn` does. `ClientSession` runs it on the
  bytes of any well-formed client.

Every `ReadFull` call has the precondition `k <= buf.Length`, so the
verifier checks that no read overflows the 256-byte buffer: NMETHODS, the
domain length byte and the fixed 4-, 1- and 2-byte reads are all at most
255.

## Model

| member | source | states |
|---|---|---|
| `Text.Decimal` | cdn2proxy.go:229 | `%d` output is a non-empty string of ASCII digits; it starts with '0' only for 0, and is one digit exactly below 10 |
| `Text.DecimalRoundTrip` | cdn2proxy.go:229 | reading the digits `%d` printed gives back the number |
| `Text.DecimalInjective` | cdn2proxy.go:195 | distinct numbers print differently |
| `Text.DottedQuad` | cdn2proxy.go:195 | the `%d.%d.%d.%d` text of an IPv4 address contains no ':'; `DottedQuadRoundTrip` reads it back as the four bytes |
| `Text.DottedQuadRoundTrip` | cdn2proxy.go:195 | the `%d.%d.%d.%d` text of four bytes splits at its dots into four decimal fields below 256, and those are the four bytes |
| `Text.HostPort` | cdn2proxy.go:229 | `"%s:%d"` starts with the host, and its last colon is the one right after the host, whatever the host holds; `HostPortRoundTrip` reads host and port back |
| `Text.HostPortRoundTrip` | cdn2proxy.go:229 | splitting `"%s:%d"` at its last colon gives back the host and the port, even when the host has colons |
| `Text.BigEndianUint16` | cdn2proxy.go:226 | the decoded port is below 65536 |
| `Text.Uint16RoundTrip` | cdn2proxy.go:226 | encoding a 16-bit value big-endian and decoding it gives it back |
| `Text.Uint16Bytes` | cdn2proxy.go:226 | decoding two bytes and encoding the value gives the two bytes back |
| `Socks5.ParseGreeting` | cdn2proxy.go:266-284 | the greeting is accepted exactly when VER is 5 and all NMETHODS method bytes are present; then 2 + NMETHODS bytes are consumed and they are the encoding of the returned method list; never more than the input is consumed |
| `Socks5.ParseAddress` | cdn2proxy.go:187-219 | the address is accepted exactly for ATYP 1 with 4 bytes, or ATYP 3 with its length byte and that many name bytes; the bytes consumed encode it; a domain name is under 256 bytes |
| `Socks5.ParsePort` | cdn2proxy.go:221-226 | the port is accepted exactly when 2 bytes remain, is below 65536, and those 2 bytes are its big-endian encoding |
| `Socks5.ParseRequest` | cdn2proxy.go:175-226 | a request is accepted exactly when VER is 5, CMD is 1, and an IPv4 address (10 bytes in all) or a complete domain request (7 + L bytes) is present; what it consumes is exactly the encoding of the returned request with the RSV byte as sent |
| `Socks5.GreetingRoundTrip` | cdn2proxy.go:270-291 | every greeting a client can send is accepted with its method list, for any NMETHODS 0..255 and whether or not it offers method 0, and exactly 2 + NMETHODS bytes are consumed |
| `Socks5.GreetingIgnoresTrailingBytes` | cdn2proxy.go:270-284 | an accepted greeting does not depend on the bytes after it |
| `Socks5.AddressRoundTrip` | cdn2proxy.go:187-210 | every IPv4 address and every domain name of at most 255 bytes is read back as itself, consuming exactly its own bytes |
| `Socks5.PortRoundTrip` | cdn2proxy.go:221-226 | every 16-bit port is read back as itself from its two big-endian bytes |
| `Socks5.RequestRoundTrip` | cdn2proxy.go:175-226 | every request the format can carry is read back as itself, with any RSV byte, and exactly its own bytes are consumed |
| `Socks5.HandshakeRoundTrip` | cdn2proxy.go:168-226 | greeting then request then payload: the greeting is read, the request is read from where it ended, and the payload is left on the stream |
| `Socks5.RequestIgnoresTrailingBytes` | cdn2proxy.go:175-258 | an accepted request does not depend on what follows it; the trailing bytes are left for the relay |
| `Socks5.ReservedByteIgnored` | cdn2proxy.go:181 | changing the RSV byte never changes the outcome |
| `Socks5.BadVerCmdReadsOnlyHeader` | cdn2proxy.go:175-185 | VER not 5 or CMD not 1 fails after exactly the 4 header bytes, before any address byte is read |
| `Socks5.UnsupportedAtypRejected` | cdn2proxy.go:212-218 | ATYP 4 fails as IPv6-unsupported, and any ATYP other than 1, 3 and 4 as invalid, both after the 4 header bytes |
| `Socks5.IPv4Destination` | cdn2proxy.go:189-229 | an ATYP 1 request consumes 4 + 4 + 2 bytes, and its destination is the dotted quad, ':' and b0*256+b1 in decimal |
| `Socks5.DomainDestination` | cdn2proxy.go:197-229 | an ATYP 3 request with length byte L consumes 4 + 1 + L + 2 bytes, and its destination is the L name bytes verbatim, ':' and the port in decimal |
| `Socks5.Host` | cdn2proxy.go:195-210 | the host is the address's dotted quad, which holds no ':', or the domain name bytes verbatim; `DestinationNamesRequest` reads the dotted quad back |
| `Socks5.Destination` | cdn2proxy.go:229 | the logged destination starts with the host and its last colon separates host and port; for an IPv4 request that colon is the only one; `DestinationNamesRequest` reads host and port back |
| `Socks5.DestinationNamesRequest` | cdn2proxy.go:229 | the logged destination gives back the request's host and port; for IPv4 the host gives back the four address bytes |
| `Socks5.ExampleIPv4Request` | cdn2proxy.go:175-226 | `[5,1,0,1,93,184,216,34,0,80]` is the 10-byte request for 93.184.216.34 port 80 |
| `Socks5.ExampleIPv4Destination` | cdn2proxy.go:195-229 | its destination is "93.184.216.34:80" |
| `Socks5.ExampleDomainRequest` | cdn2proxy.go:197-226 | length byte 11, "example.com" and port bytes [1, 187] form an 18-byte request for example.com port 443 |
| `Socks5.ExampleDomainDestination` | cdn2proxy.go:210-229 | that request's destination is "example.com:443" |
| `Socks5Conn.Conn.ReadFull` | cdn2proxy.go:175 | `io.ReadFull` on a buffer of at least k bytes: it delivers min(k, remaining) bytes, which are the next bytes of the stream, into the front of the buffer; the rest of the buffer and the output are unchanged |
| `Socks5Conn.Conn.Write` | cdn2proxy.go:233 | a write appends all its bytes to the output, or fails and appends nothing |
| `Socks5Handler.Socks5Auth` | cdn2proxy.go:266-293 | consumes what `ParseGreeting` consumes; a rejected greeting returns its error and writes nothing; an accepted one writes exactly [5, 0] and returns nil, or returns a write error |
| `Socks5Handler.ReadAddress` | cdn2proxy.go:187-219 | reads, returns and consumes exactly what `ParseAddress` says, writes nothing, and every read fits the 256-byte buffer |
| `Socks5Handler.ReadPort` | cdn2proxy.go:221-226 | reads, returns and consumes exactly what `ParsePort` says and writes nothing |
| `Socks5Handler.HandleRequest` | cdn2proxy.go:173-237 | consumes what `ParseRequest` consumes; a rejected request returns its error and writes nothing; an accepted one writes exactly the 10-byte success reply whatever the destination, and returns the "host:port" destination, or a write error |
| `Socks5Handler.HandleConn` | cdn2proxy.go:168-237 | a failed greeting ends the session before any request byte is read; otherwise the request is parsed from where the greeting ended; a full success writes exactly [5, 0] then the success reply, and consumes nothing past the request |
| `Socks5Handler.ClientSession` | cdn2proxy.go:168-237 | for any greeting (any method list), any request the format can carry and any payload after it, the handler returns the requested destination, writes exactly [5, 0] and the 10-byte success reply, and leaves the payload on the stream |

## Left out

- `StartServer` and `serveWS` are not modelled. They cover the HTTP listener, the WebSocket upgrade and the dial of the backend. They are I/O over a library outside this model. The dial always uses the process-wide backend address, never a parsed request. The model reflects this only in that `Destination` is returned and nothing else uses it.
- `StartProxy` is not modelled: the DoH resolver, the WebSocket dialer with its proxy URL, and the dial-before-accept loop. It is network and library wiring.
- The two `io.Copy` relay goroutines and their `context` cancellation are not modelled, because their point is concurrency and teardown order. The model only proves that bytes after the request stay on the stream for the relay.
- The sleep-polling "keep the connection" loops are not modelled; they are timing only.
- Closing the connections (the deferred `Close` calls) is not modelled.
- Logging (`Logger`, `fmt.Println`) and the text of the Go error values are not modelled. Each failure step is a constructor of `Socks5.Error` instead.
- `cmd/client/main.go` and `cmd/server/main.go` are not modelled; each is one call with fixed arguments.
- Socks5Conn.Conn.Write: a failed write is modelled as writing nothing, but Go's `Write` may send a prefix before failing. Whether writes fail is fixed per connection (`writeFails`), so the greeting reply and the success reply fail or succeed together.
- Socks5Conn.Conn.ReadFull: the client's bytes are modelled as a fixed sequence that ends at end of stream. Timing and how the bytes are split across TCP segments are not modelled.
