/**
 * Byte-string rendering used by the SOCKS5 front end: Go's `%d` verb on an
 * unsigned integer, the dotted-quad rendering of an IPv4 address, the
 * `"%s:%d"` destination string, and `binary.BigEndian.Uint16`.
 *
 * Go strings are byte strings, so every rendered value here is a `seq<Byte>`
 * of ASCII codes. Each rendering comes with the inverse that reads it back,
 * and a lemma that the two compose to the identity.
 */
module Text {

  /** Go's `byte`. */
  type Byte = b: int | 0 <= b < 256

  datatype Option<T> = None | Some(value: T)

  const Zero: Byte := 48   // '0'
  const Dot: Byte := 46    // '.'
  const Colon: Byte := 58  // ':'

  predicate IsDigit(b: Byte) {
    Zero <= b <= Zero + 9
  }

  predicate AllDigits(s: seq<Byte>) {
    forall i :: 0 <= i < |s| ==> IsDigit(s[i])
  }

  /** The text Go's `%d` verb produces for a non-negative integer: decimal, no sign, no leading zeros. */
  function Decimal(n: nat): (r: seq<Byte>)
    ensures 1 <= |r| && AllDigits(r)
    ensures r[0] == Zero <==> n == 0
    ensures |r| == 1 <==> n < 10
    decreases n
  {
    if n < 10 then [Zero + n] else Decimal(n / 10) + [Zero + n % 10]
  }

  /** The number a string of decimal digits denotes (most significant digit first). */
  function DecimalValue(s: seq<Byte>): nat
    requires AllDigits(s)
  {
    if s == [] then 0 else DecimalValue(s[..|s| - 1]) * 10 + (s[|s| - 1] - Zero)
  }

  /** Reading back what `%d` printed gives the number that was printed. */
  lemma {:induction false} DecimalRoundTrip(n: nat)
    ensures DecimalValue(Decimal(n)) == n
  {
    if n >= 10 {
      var s := Decimal(n);
      assert s[..|s| - 1] == Decimal(n / 10);
      DecimalRoundTrip(n / 10);
    }
  }

  /** `%d` renders different numbers as different texts. */
  lemma DecimalInjective(m: nat, n: nat)
    requires Decimal(m) == Decimal(n)
    ensures m == n
  {
    DecimalRoundTrip(m);
    DecimalRoundTrip(n);
  }

  /**
   * Splits `s` at every occurrence of `sep`, as Go's `strings.Split`: the
   * fields hold no separator, and there is one more field than separators.
   */
  function Split(s: seq<Byte>, sep: Byte): (r: seq<seq<Byte>>)
    ensures |r| >= 1
    ensures forall i :: 0 <= i < |r| ==> sep !in r[i]
    ensures sep !in s ==> r == [s]
  {
    if s == [] then [[]]
    else
      var rest := Split(s[1..], sep);
      assert [s[0]] + s[1..] == s;
      if s[0] == sep then [[]] + rest else [[s[0]] + rest[0]] + rest[1..]
  }

  /** A field followed by a separator is split off as the first field. */
  lemma {:induction false} SplitField(x: seq<Byte>, sep: Byte, y: seq<Byte>)
    requires sep !in x
    ensures Split(x + [sep] + y, sep) == [x] + Split(y, sep)
  {
    var s := x + [sep] + y;
    if x == [] {
      assert s[1..] == y;
    } else {
      assert s[1..] == x[1..] + [sep] + y;
      SplitField(x[1..], sep, y);
      assert [x[0]] + x[1..] == x;
    }
  }

  /**
   * `fmt.Sprintf("%d.%d.%d.%d", a, b, c, d)`: the dotted-quad text of an IPv4
   * address. It holds no colon, so it never confuses `host:port` splitting.
   */
  function DottedQuad(a: Byte, b: Byte, c: Byte, d: Byte): (r: seq<Byte>)
    ensures Colon !in r
  {
    Decimal(a) + [Dot] + (Decimal(b) + [Dot] + (Decimal(c) + [Dot] + Decimal(d)))
  }

  /** A field of a dotted quad: a decimal number below 256. */
  predicate IsOctet(f: seq<Byte>) {
    1 <= |f| && AllDigits(f) && DecimalValue(f) < 256
  }

  /** Reads a dotted quad back into its four bytes; `None` for any other text. */
  function ParseDottedQuad(s: seq<Byte>): Option<(Byte, Byte, Byte, Byte)> {
    var f := Split(s, Dot);
    if |f| == 4 && IsOctet(f[0]) && IsOctet(f[1]) && IsOctet(f[2]) && IsOctet(f[3])
    then Some((DecimalValue(f[0]), DecimalValue(f[1]), DecimalValue(f[2]), DecimalValue(f[3])))
    else None
  }

  lemma NoSeparatorInDecimal(n: nat, sep: Byte)
    requires !IsDigit(sep)
    ensures sep !in Decimal(n)
  {
  }

  /** Four separator-free fields joined by the separator split back into those four fields. */
  lemma SplitFourFields(w: seq<Byte>, x: seq<Byte>, y: seq<Byte>, z: seq<Byte>, sep: Byte)
    requires sep !in w && sep !in x && sep !in y && sep !in z
    ensures Split(w + [sep] + (x + [sep] + (y + [sep] + z)), sep) == [w, x, y, z]
  {
    var yz := y + [sep] + z;
    SplitField(y, sep, z);
    assert Split(yz, sep) == [y, z];
    var xyz := x + [sep] + yz;
    SplitField(x, sep, yz);
    assert Split(xyz, sep) == [x, y, z];
    SplitField(w, sep, xyz);
  }

  /** The `%d` text of a byte is a field of a dotted quad that reads back as that byte. */
  lemma DecimalOctet(b: Byte)
    ensures IsOctet(Decimal(b)) && DecimalValue(Decimal(b)) == b
  {
  }

  /** The dotted quad names its address: reading it back gives the four bytes. */
  lemma DottedQuadRoundTrip(a: Byte, b: Byte, c: Byte, d: Byte)
    ensures ParseDottedQuad(DottedQuad(a, b, c, d)) == Some((a, b, c, d))
  {
    NoSeparatorInDecimal(a, Dot);
    NoSeparatorInDecimal(b, Dot);
    NoSeparatorInDecimal(c, Dot);
    NoSeparatorInDecimal(d, Dot);
    SplitFourFields(Decimal(a), Decimal(b), Decimal(c), Decimal(d), Dot);
    DecimalOctet(a);
    DecimalOctet(b);
    DecimalOctet(c);
    DecimalOctet(d);
  }

  /**
   * `fmt.Sprintf("%s:%d", host, port)`. Its last colon is the one after the
   * host, whatever the host holds, since the port's digits have none.
   */
  function HostPort(host: seq<Byte>, port: nat): (r: seq<Byte>)
    ensures |host| < |r| && r[..|host|] == host
    ensures LastIndexOf(r, Colon) == Some(|host|)
  {
    var digits := Decimal(port);
    var s := host + [Colon] + digits;
    NoSeparatorInDecimal(port, Colon);
    assert s[|host|] == Colon && s[|host| + 1..] == digits;
    assert LastIndexOf(s, Colon) == Some(|host|);
    s
  }

  /** The index of the last occurrence of `b` in `s`, if any. */
  function LastIndexOf(s: seq<Byte>, b: Byte): (r: Option<nat>)
    ensures r.Some? ==> r.value < |s| && s[r.value] == b && b !in s[r.value + 1..]
    ensures r.None? ==> b !in s
  {
    if s == [] then None
    else if s[|s| - 1] == b then Some(|s| - 1)
    else
      var r := LastIndexOf(s[..|s| - 1], b);
      assert r.Some? ==> s[r.value + 1..] == s[..|s| - 1][r.value + 1..] + [s[|s| - 1]];
      assert r.None? ==> s == s[..|s| - 1] + [s[|s| - 1]];
      r
  }

  /**
   * Splits a destination at its last colon into host and port; the port
   * must be one or more decimal digits. `None` otherwise.
   */
  function SplitHostPort(s: seq<Byte>): Option<(seq<Byte>, nat)> {
    match LastIndexOf(s, Colon)
    case None => None
    case Some(i) =>
      var p := s[i + 1..];
      if 1 <= |p| && AllDigits(p) then Some((s[..i], DecimalValue(p))) else None
  }

  /**
   * The destination string names the host and port it was made from, even
   * when the host itself contains colons (a domain name is taken verbatim).
   */
  lemma HostPortRoundTrip(host: seq<Byte>, port: nat)
    ensures SplitHostPort(HostPort(host, port)) == Some((host, port))
  {
    var s := HostPort(host, port);
    assert s[|host| + 1..] == Decimal(port);
    DecimalRoundTrip(port);
  }

  /** `binary.BigEndian.Uint16`: two bytes, most significant first. */
  function BigEndianUint16(hi: Byte, lo: Byte): (v: nat)
    ensures v < 0x1_0000
  {
    hi * 256 + lo
  }

  /** `binary.BigEndian.PutUint16`: the two bytes of a 16-bit value, most significant first. */
  function PutUint16(v: nat): (r: seq<Byte>)
    requires v < 0x1_0000
  {
    [v / 256, v % 256]
  }

  /** Encoding a 16-bit value and decoding it again gives the value back. */
  lemma Uint16RoundTrip(v: nat)
    requires v < 0x1_0000
    ensures |PutUint16(v)| == 2 && BigEndianUint16(PutUint16(v)[0], PutUint16(v)[1]) == v
  {
  }

  /** Decoding two bytes and encoding the value again gives the two bytes back. */
  lemma Uint16Bytes(hi: Byte, lo: Byte)
    ensures PutUint16(BigEndianUint16(hi, lo)) == [hi, lo]
  {
  }
}
