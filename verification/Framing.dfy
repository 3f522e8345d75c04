/** The two nested length prefixes of an application message: four bytes inside the encryption, two bytes
    outside it. */
module Framing {
  import opened Wrappers

  type Byte = b: int | 0 <= b < 256 witness 0
  type Bytes = seq<Byte>

  const BUF_LEN := 65536

  /** The longest message of the Noise Protocol Framework, section 3. */
  const NOISE_LIMIT := 65535
  const TAG := 16

  /** The two directions of a transport state: each message has its number, and opening undoes sealing. */
  datatype Cipher = Cipher(seal: (nat, Bytes) -> Bytes, open: (nat, Bytes) -> Option<Bytes>) {
    ghost predicate Correct() {
      forall n, x :: |seal(n, x)| == |x| + TAG && open(n, seal(n, x)) == Some(x)
    }
  }

  function U16(n: nat): Bytes { [n / 256 % 256, n % 256] }

  function U32(n: nat): Bytes { [n / 0x100_0000 % 256, n / 0x1_0000 % 256, n / 256 % 256, n % 256] }

  function FromU32(b: Bytes): nat
    requires |b| == 4
  {
    b[0] as int * 0x100_0000 + b[1] as int * 0x1_0000 + b[2] as int * 256 + b[3] as int
  }

  /** The length is written modulo two to the sixteenth. */
  function Framed(x: Bytes): Bytes { U16(|x| % 0x1_0000) + x }

  /** None where the source's slices panic. */
  function Unframed(d: Bytes): Option<Bytes> {
    if |d| < 2 then None
    else
      var len := d[0] as int * 256 + d[1] as int;
      if 2 + len <= |d| then Some(d[2..2 + len]) else None
  }

  /** The frame is the length's high byte, its low byte, and what is framed. It gives that back if and only
      if the length survives the truncation. */
  lemma UnframedExactlyIf(x: Bytes)
    ensures |Framed(x)| == |x| + 2 && Framed(x)[2..] == x
    ensures Framed(x)[0] as int * 256 + Framed(x)[1] as int == |x| % 0x1_0000
    ensures Unframed(Framed(x)) == Some(x) <==> |x| < 0x1_0000
  {
    var n := |x| % 0x1_0000;
    assert n / 256 % 256 * 256 + n % 256 == n;
    assert Framed(x)[2..2 + n] == x[..n];
    if |x| < 0x1_0000 { assert x[..n] == x; }
  }

  /** What an application sends: the length of its message and the message. */
  function Prefixed(m: Bytes): Bytes { U32(|m| % 0x1_0000_0000) + m }

  function Unprefixed(b: Bytes): Option<Bytes> {
    if |b| < 4 then None
    else
      var size := FromU32(b[..4]);
      if size + 4 <= |b| then Some(b[4..size + 4]) else None
  }

  lemma U32RoundTrip(n: nat)
    requires n < 0x1_0000_0000
    ensures FromU32(U32(n)) == n
  {}

  /** The prefix is the length in four bytes, the highest first. A buffer whose first bytes are a prefixed
      message gives the message back, whatever lies behind it. */
  lemma UnprefixedPrefixed(m: Bytes, rest: Bytes)
    requires |m| < 0x1_0000_0000
    ensures |Prefixed(m)| == |m| + 4 && Prefixed(m)[4..] == m
    ensures var b := Prefixed(m);
            b[0] as int * 0x100_0000 + b[1] as int * 0x1_0000 + b[2] as int * 256 + b[3] as int == |m|
    ensures Unprefixed(Prefixed(m) + rest) == Some(m)
  {
    U32RoundTrip(|m|);
    var b := Prefixed(m) + rest;
    assert b[..4] == U32(|m|);
    assert b[4..|m| + 4] == m;
  }

  /** The limit on the plaintext: sealed, it must be a Noise message. */
  predicate Sendable(payload: Bytes) { |payload| + TAG <= NOISE_LIMIT }

  class CircuitConn {
    const cipher: Cipher
    var established: bool
    var sendCount: nat
    var receiveCount: nat
    var outStream: seq<Bytes>
    var inChannel: seq<Bytes>

    constructor (c: Cipher)
      ensures cipher == c && !established && outStream == [] && inChannel == [] && sendCount == 0 && receiveCount == 0
    {
      cipher, established, sendCount, receiveCount, outStream, inChannel := c, false, 0, 0, [], [];
    }

    /** Copies into the caller's buffer. */
    method Fill(buf: array<Byte>, x: Bytes)
      requires |x| <= buf.Length
      modifies buf
      ensures buf[..] == x + old(buf[..])[|x|..]
    {
      var i := 0;
      while i < |x|
        invariant 0 <= i <= |x|
        invariant forall j :: 0 <= j < i ==> buf[j] == x[j]
        invariant forall j :: i <= j < buf.Length ==> buf[j] == old(buf[..])[j]
      {
        buf[i] := x[i];
        i := i + 1;
      }
      assert forall j :: |x| <= j < buf.Length ==> buf[j] == old(buf[..])[|x|..][j - |x|];
    }

    /** Without a transport state nothing happens. `ok` is false where the source's cipher fails and the
        task panics. */
    method Write(payload: Bytes, buf: array<Byte>) returns (ok: bool)
      requires buf.Length == BUF_LEN && cipher.Correct()
      modifies this`sendCount, this`outStream, buf
      ensures ok <==> !established || Sendable(payload)
      ensures established && ok ==>
                var sealed := cipher.seal(old(sendCount), payload);
                && |sealed| < 0x1_0000 && sendCount == old(sendCount) + 1
                && outStream == old(outStream) + [[|sealed| / 256, |sealed| % 256] + sealed]
                && outStream == old(outStream) + [Framed(sealed)]
      ensures !(established && ok) ==>
              outStream == old(outStream) && sendCount == old(sendCount) && buf[..] == old(buf[..])
    {
      if !established { return true; }
      if |payload| + TAG > NOISE_LIMIT { return false; }
      var sealed := cipher.seal(sendCount, payload);
      Fill(buf, sealed);
      sendCount := sendCount + 1;
      var len := |sealed|;
      assert buf[..len] == sealed;
      outStream := outStream + [U16(len % 0x1_0000) + buf[..len]];
      return true;
    }

    /** Takes the next message from the channel. The caller's buffer keeps what was behind the plaintext. */
    method Read(buf: array<Byte>) returns (r: Option<Bytes>)
      requires buf.Length == BUF_LEN && (established ==> inChannel != [])
      modifies this`receiveCount, this`inChannel, buf
      ensures !established ==> r == Some([]) && inChannel == old(inChannel) && receiveCount == old(receiveCount)
      ensures established && r.Some? ==>
                var data := old(inChannel)[0];
                && |data| >= 2
                && var len := data[0] as int * 256 + data[1] as int;
                && 2 + len <= |data|
                && var plain := cipher.open(old(receiveCount), data[2..2 + len]);
                && plain.Some? && |plain.value| <= buf.Length
                && buf[..] == plain.value + old(buf[..])[|plain.value|..]
                && var size :=
                  buf[0] as int * 0x100_0000 + buf[1] as int * 0x1_0000 + buf[2] as int * 256 + buf[3] as int;
                && size + 4 <= buf.Length && r.value == buf[4..size + 4]
      ensures established && r.None? ==>
                var data := old(inChannel)[0];
                || |data| < 2
                || var len := data[0] as int * 256 + data[1] as int;
                || 2 + len > |data|
                || var plain := cipher.open(old(receiveCount), data[2..2 + len]);
                || plain.None? || |plain.value| > buf.Length
                || buf[0] as int * 0x100_0000 + buf[1] as int * 0x1_0000 + buf[2] as int * 256 + buf[3] as int + 4
                   > buf.Length
      ensures established ==>
              r == Opened(cipher, old(receiveCount), old(inChannel)[0], old(buf[..]))
              && inChannel == old(inChannel)[1..]
      ensures established && r.Some? ==> receiveCount == old(receiveCount) + 1
    {
      if !established { return Some([]); }
      var data := inChannel[0];
      inChannel := inChannel[1..];
      if |data| < 2 { return None; }
      var bufLen := data[0] as int * 256 + data[1] as int;
      if 2 + bufLen > |data| { return None; }
      var plain := cipher.open(receiveCount, data[2..2 + bufLen]);
      if plain.None? || |plain.value| > buf.Length { return None; }
      Fill(buf, plain.value);
      receiveCount := receiveCount + 1;
      var head := buf[..4];
      var realSize := FromU32(head);
      if realSize + 4 > buf.Length { return None; }
      return Some(buf[4..realSize + 4]);
    }
  }

  /** What goes over the wire for a series of messages, from message number `n` on. */
  function Sealed(c: Cipher, n: nat, ms: seq<Bytes>): seq<Bytes>
    decreases |ms|
  {
    if ms == [] then [] else [Framed(c.seal(n, Prefixed(ms[0])))] + Sealed(c, n + 1, ms[1..])
  }

  /** One read: the frame, the cipher and the inner prefix undone, over whatever the buffer held. */
  function Opened(c: Cipher, n: nat, data: Bytes, before: Bytes): Option<Bytes> {
    var x := Unframed(data);
    if x.None? then None
    else
      var p := c.open(n, x.value);
      if p.None? || |p.value| > |before| then None
      else Unprefixed(p.value + before[|p.value|..])
  }

  /** Sending and reading one message gives it back exactly, whatever the buffer held before. */
  lemma MessageRoundTrip(c: Cipher, n: nat, m: Bytes, before: Bytes)
    requires c.Correct() && Sendable(Prefixed(m)) && |before| == BUF_LEN
    ensures Opened(c, n, Framed(c.seal(n, Prefixed(m))), before) == Some(m)
  {
    UnframedExactlyIf(c.seal(n, Prefixed(m)));
    UnprefixedPrefixed(m, before[|Prefixed(m)|..]);
  }

  lemma {:induction false} SealedAt(c: Cipher, n: nat, ms: seq<Bytes>, i: nat)
    requires i < |ms|
    ensures |Sealed(c, n, ms)| == |ms| && Sealed(c, n, ms)[i] == Framed(c.seal(n + i, Prefixed(ms[i])))
    decreases |ms|
  {
    hide Framed, Prefixed;
    if i > 0 { SealedAt(c, n + 1, ms[1..], i - 1); }
    if i == 0 && |ms| > 1 { SealedAt(c, n + 1, ms[1..], 0); }
  }

  /** Every series of messages within the limit, read in order, comes out as it went in. */
  lemma ConversationRoundTrip(c: Cipher, n: nat, ms: seq<Bytes>, befores: seq<Bytes>)
    requires c.Correct() && (forall i :: 0 <= i < |ms| ==> Sendable(Prefixed(ms[i])))
    requires |befores| == |ms| && forall i :: 0 <= i < |befores| ==> |befores[i]| == BUF_LEN
    ensures |Sealed(c, n, ms)| == |ms|
    ensures forall i :: 0 <= i < |ms| ==> Opened(c, n + i, Sealed(c, n, ms)[i], befores[i]) == Some(ms[i])
  {
    if |ms| > 0 { SealedAt(c, n, ms, 0); }
    hide Opened, Sealed, Framed, Prefixed, Sendable;
    forall i | 0 <= i < |ms|
      ensures |Sealed(c, n, ms)| == |ms| && Opened(c, n + i, Sealed(c, n, ms)[i], befores[i]) == Some(ms[i])
    {
      SealedAt(c, n, ms, i);
      MessageRoundTrip(c, n + i, ms[i], befores[i]);
    }
  }
}
