/**
 A blocking byte stream in both directions, and the loops that move whole buffers
 over it.  Reads and writes move any positive number of bytes; on a faulty channel
 they may also fail at any time, on a sound one only at the end of the input.
 */
module ByteChannel {
  import opened Bytes

  class Channel {
    const sound: bool
    var input: seq<byte>   // still to be read
    var output: seq<byte>  // written so far

    constructor (sound: bool, input: seq<byte>)
      ensures this.sound == sound && this.input == input && output == []
    {
      this.sound, this.input, output := sound, input, [];
    }

    /** Empty at the end of the input or on an error. */
    method Read(max: nat) returns (chunk: seq<byte>)
      requires max > 0
      modifies this`input
      ensures chunk + input == old(input) && |chunk| <= max
      ensures sound && old(input) != [] ==> chunk != []
    {
      var limit := if max <= |input| then max else |input|;
      var n: nat :| n <= limit && (sound && limit > 0 ==> n > 0);
      chunk, input := input[..n], input[n..];
    }

    method Write(chunk: seq<byte>) returns (n: nat)
      requires chunk != []
      modifies this`output
      ensures n <= |chunk| && output == old(output) + chunk[..n]
      ensures sound ==> n > 0
    {
      n :| n <= |chunk| && (sound ==> n > 0);
      output := output + chunk[..n];
    }
  }

  /** read_full and read_exact: fill buf in place. */
  method ReadFull(c: Channel, buf: array<byte>) returns (ok: bool)
    modifies c`input, buf
    ensures Tail(old(c.input), c.input)
    ensures ok ==> buf[..] + c.input == old(c.input)
    ensures c.sound ==> (ok <==> |old(c.input)| >= buf.Length)
  {
    var got := 0;
    assert buf[..0] == [];
    while got < buf.Length
      invariant 0 <= got <= buf.Length && buf[..got] + c.input == old(c.input)
    {
      ghost var head, tail := buf[..got], c.input;
      var chunk := c.Read(buf.Length - got);
      if chunk == [] {
        return false;
      }
      forall i | 0 <= i < |chunk| {
        buf[got + i] := chunk[i];
      }
      assert buf[..got + |chunk|] == head + chunk;
      assert head + chunk + c.input == head + tail;
      got := got + |chunk|;
    }
    assert buf[..got] == buf[..];
    return true;
  }

  /** write_full and write_all. */
  method WriteFull(c: Channel, buf: seq<byte>) returns (ok: bool)
    modifies c`output
    ensures old(c.output) <= c.output <= old(c.output) + buf
    ensures ok ==> c.output == old(c.output) + buf
    ensures c.sound ==> ok
  {
    var done := 0;
    assert buf[..0] == [];
    while done < |buf|
      invariant 0 <= done <= |buf| && c.output == old(c.output) + buf[..done]
    {
      var n := c.Write(buf[done..]);
      assert buf[..done] + buf[done..][..n] == buf[..done + n];
      if n == 0 {
        return false;
      }
      done := done + n;
    }
    return true;
  }
}
