/**
 * The local client connection as the SOCKS5 handler sees it: the bytes the
 * client sends before it closes its side, a read cursor into them, and the
 * bytes written back. `ReadFull` is Go's `io.ReadFull` on this connection.
 */
module Socks5Conn {
  import opened Text

  class Conn {
    /** Everything the client sends before end of stream. */
    const input: seq<Byte>
    /** Whether the client side refuses writes (a reset or closed socket). */
    const writeFails: bool
    /** How many input bytes have been read. */
    var pos: nat
    /** Everything written to the client so far. */
    var output: seq<Byte>

    ghost predicate Valid()
      reads this
    {
      pos <= |input|
    }

    /** The bytes not yet read. */
    function Remaining(): seq<Byte>
      reads this
      requires Valid()
    {
      input[pos..]
    }

    constructor (input: seq<Byte>, writeFails: bool)
      ensures Valid()
      ensures this.input == input && this.writeFails == writeFails
      ensures pos == 0 && output == []
    {
      this.input := input;
      this.writeFails := writeFails;
      pos := 0;
      output := [];
    }

    /**
     * `io.ReadFull(conn, buf[:k])`: reads until `k` bytes are in `buf` or
     * the stream ends, and reports how many arrived; fewer than `k` means
     * the stream ended and everything left was taken. Only `buf[..k]` is
     * ever written; the rest of the buffer keeps its old bytes.
     */
    method ReadFull(buf: array<Byte>, k: nat) returns (n: nat)
      requires Valid()
      requires k <= buf.Length
      modifies this`pos, buf
      ensures Valid()
      ensures n == if k <= |old(Remaining())| then k else |old(Remaining())|
      ensures pos == old(pos) + n
      ensures buf[..n] == old(Remaining())[..n]
      ensures buf[n..] == old(buf[n..])
    {
      n := if k <= |input| - pos then k else |input| - pos;
      forall i | 0 <= i < n {
        buf[i] := input[pos + i];
      }
      pos := pos + n;
    }

    /** `conn.Write(data)`: all of `data` is sent, or the write fails and nothing is. */
    method Write(data: seq<Byte>) returns (ok: bool)
      modifies this`output
      ensures ok == !writeFails
      ensures output == if ok then old(output) + data else old(output)
    {
      ok := !writeFails;
      if ok {
        output := output + data;
      }
    }
  }
}
