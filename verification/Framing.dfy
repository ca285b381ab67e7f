/** Length-prefix framing: the writer of frames and the incremental reader. */
module Framing {
  import opened Configuration

  type Byte = x: int | 0 <= x < 256

  const HEADER_SIZE: nat := 4
  const MAX_PACKET_SIZE: nat := 1024 * 1024

  /** The header of a packet: its size as four bytes, least significant first. */
  function Header(n: Word): (h: seq<Byte>)
    ensures |h| == HEADER_SIZE
  {
    [n % 256, n / 256 % 256, n / 65536 % 256, n / 16777216]
  }

  function SizeIn(h: seq<Byte>): Word
    requires |h| == HEADER_SIZE
  {
    (h[0] as int) + 256 * (h[1] as int) + 65536 * (h[2] as int) + 16777216 * (h[3] as int)
  }

  lemma SizeOfHeader(n: Word)
    ensures SizeIn(Header(n)) == n
  {
    var a := n / 256;
    var b := n / 65536;
    assert b == a / 256 && n / 16777216 == b / 256;
  }

  /** The four bytes as they stand in memory and on the wire, least significant first. */
  lemma HeaderLayout()
    ensures Header(0) == [0, 0, 0, 0] && Header(1) == [1, 0, 0, 0] && Header(258) == [2, 1, 0, 0]
    ensures Header(0x0403_0201) == [1, 2, 3, 4] && SizeIn([1, 2, 3, 4]) == 0x0403_0201
  {
  }

  function Frame(p: seq<Byte>): seq<Byte>
    requires |p| <= MAX_PACKET_SIZE
  {
    Header(|p|) + p
  }

  predicate Sendable(ps: seq<seq<Byte>>) {
    forall i :: 0 <= i < |ps| ==> |ps[i]| <= MAX_PACKET_SIZE
  }

  /** The bytes of several packets sent one after another. */
  function Frames(ps: seq<seq<Byte>>): seq<Byte>
    requires Sendable(ps)
  {
    if ps == [] then [] else Frame(ps[0]) + Frames(ps[1..])
  }

  // ---- What a byte stream means to the reader ----

  /** The packets read from a stream, the bytes of the packet being read, and
      whether an oversized header has closed the connection. */
  datatype Parsed = Parsed(packets: seq<seq<Byte>>, rest: seq<Byte>, closed: bool)

  function Parse(s: seq<Byte>): Parsed
    decreases |s|
  {
    if |s| < HEADER_SIZE then Parsed([], s, false) else
      var n := SizeIn(s[..HEADER_SIZE]);
      if n > MAX_PACKET_SIZE then Parsed([], [], true)
      else if |s| < HEADER_SIZE + n then Parsed([], s, false)
      else
        var tail := Parse(s[HEADER_SIZE + n..]);
        Parsed([s[HEADER_SIZE..HEADER_SIZE + n]] + tail.packets, tail.rest, tail.closed)
  }

  function After(p: Parsed, q: Parsed): Parsed {
    Parsed(p.packets + q.packets, q.rest, q.closed)
  }

  /** The bytes are too few for the next frame. */
  predicate Incomplete(s: seq<Byte>) {
    |s| < HEADER_SIZE || (SizeIn(s[..HEADER_SIZE]) <= MAX_PACKET_SIZE && |s| < HEADER_SIZE + SizeIn(s[..HEADER_SIZE]))
  }

  lemma ParseIncomplete(s: seq<Byte>)
    requires Incomplete(s)
    ensures Parse(s) == Parsed([], s, false)
  {
  }

  lemma ParseOversized(s: seq<Byte>)
    requires |s| >= HEADER_SIZE && SizeIn(s[..HEADER_SIZE]) > MAX_PACKET_SIZE
    ensures Parse(s) == Parsed([], [], true)
  {
  }

  lemma ParseFirst(s: seq<Byte>, n: nat)
    requires n <= MAX_PACKET_SIZE && |s| >= HEADER_SIZE + n && SizeIn(s[..HEADER_SIZE]) == n
    ensures Parse(s) == After(Parsed([s[HEADER_SIZE..HEADER_SIZE + n]], [], false), Parse(s[HEADER_SIZE + n..]))
  {
    hide SizeIn;
  }

  /** Reading is incremental: only the bytes of the packet being read matter for
      what follows, and nothing follows once the connection is closed. */
  lemma {:induction false} ParseAppend(a: seq<Byte>, b: seq<Byte>)
    ensures Parse(a + b) == if Parse(a).closed then Parse(a) else After(Parse(a), Parse(Parse(a).rest + b))
    decreases |a|
  {
    hide SizeIn, Parse;
    if Incomplete(a) {
      ParseIncomplete(a);
    } else {
      assert (a + b)[..HEADER_SIZE] == a[..HEADER_SIZE];
      var n := SizeIn(a[..HEADER_SIZE]);
      if n > MAX_PACKET_SIZE {
        ParseOversized(a);
        ParseOversized(a + b);
      } else {
        var k := HEADER_SIZE + n;
        assert (a + b)[k..] == a[k..] + b && (a + b)[HEADER_SIZE..k] == a[HEADER_SIZE..k];
        ParseFirst(a, n);
        ParseFirst(a + b, n);
        ParseAppend(a[k..], b);
      }
    }
  }

  // ---- Framing round trip ----

  lemma ParseFrame(p: seq<Byte>, tail: seq<Byte>)
    requires |p| <= MAX_PACKET_SIZE
    ensures Parse(Frame(p) + tail) == After(Parsed([p], [], false), Parse(tail))
  {
    var s := Frame(p) + tail;
    SizeOfHeader(|p|);
    assert s[..HEADER_SIZE] == Header(|p|);
    assert s[HEADER_SIZE..HEADER_SIZE + |p|] == p;
    assert s[HEADER_SIZE + |p|..] == tail;
  }

  /** The reader gets back exactly the packets that were framed, and goes on with
      whatever follows them. */
  lemma {:induction false} RoundTrip(ps: seq<seq<Byte>>, tail: seq<Byte>)
    requires Sendable(ps)
    ensures Parse(Frames(ps) + tail) == After(Parsed(ps, [], false), Parse(tail))
    decreases |ps|
  {
    hide Parse, Frame;
    if ps == [] {
      assert Frames(ps) + tail == tail;
    } else {
      assert Frames(ps) + tail == Frame(ps[0]) + (Frames(ps[1..]) + tail);
      ParseFrame(ps[0], Frames(ps[1..]) + tail);
      RoundTrip(ps[1..], tail);
      assert [ps[0]] + ps[1..] == ps;
    }
  }

  lemma {:induction false} FramesConcat(a: seq<seq<Byte>>, b: seq<seq<Byte>>)
    requires Sendable(a) && Sendable(b)
    ensures Frames(a + b) == Frames(a) + Frames(b)
    decreases |a|
  {
    if a == [] {
      assert a + b == b;
    } else {
      assert (a + b)[1..] == a[1..] + b;
      FramesConcat(a[1..], b);
    }
  }

  /** How many packets lie wholly within the first bytes of their frames. */
  predicate WhollyWithin(ps: seq<seq<Byte>>, k: nat, n: nat)
    requires Sendable(ps)
  {
    && k <= |ps|
    && |Frames(ps[..k])| <= n
    && (k < |ps| ==> n < |Frames(ps[..k + 1])|)
  }

  /** Cut the stream anywhere: what has been delivered by then is exactly the
      packets wholly contained in the bytes so far. */
  lemma DeliveredSoFar(ps: seq<seq<Byte>>, n: nat, k: nat)
    requires Sendable(ps) && n <= |Frames(ps)| && WhollyWithin(ps, k, n)
    ensures Parse(Frames(ps)[..n]).packets == ps[..k] && !Parse(Frames(ps)[..n]).closed
  {
    assert ps == ps[..k] + ps[k..];
    FramesConcat(ps[..k], ps[k..]);
    var done := Frames(ps[..k]);
    var tail := Frames(ps[k..])[..n - |done|];
    assert Frames(ps)[..n] == done + tail;
    RoundTrip(ps[..k], tail);
    if k < |ps| {
      assert ps[..k + 1] == ps[..k] + [ps[k]];
      FramesConcat(ps[..k], [ps[k]]);
      assert Frames([ps[k]]) == Frame(ps[k]) + [];
      PartialFrame(ps[k], Frames(ps[k..]), |tail|);
    } else {
      assert tail == [];
    }
  }

  lemma PartialFrame(p: seq<Byte>, s: seq<Byte>, n: nat)
    requires |p| <= MAX_PACKET_SIZE && n < |Frame(p)| <= |s| && s[..|Frame(p)|] == Frame(p)
    ensures Parse(s[..n]).packets == [] && !Parse(s[..n]).closed
  {
    if n >= HEADER_SIZE {
      SizeOfHeader(|p|);
      assert s[..n][..HEADER_SIZE] == s[..|Frame(p)|][..HEADER_SIZE] == Header(|p|);
    }
  }

  /** Every cut has such a number of packets. */
  lemma {:induction false} CutExists(ps: seq<seq<Byte>>, n: nat, from: nat) returns (k: nat)
    requires Sendable(ps) && from <= |ps| && |Frames(ps[..from])| <= n
    ensures WhollyWithin(ps, k, n)
    decreases |ps| - from
  {
    if from < |ps| && |Frames(ps[..from + 1])| <= n {
      k := CutExists(ps, n, from + 1);
    } else {
      k := from;
    }
  }

  /** At an oversized header the reader has delivered everything before it and
      delivers nothing after it. */
  lemma OversizedCloses(ps: seq<seq<Byte>>, size: Word, after: seq<Byte>)
    requires Sendable(ps) && size > MAX_PACKET_SIZE
    ensures Parse(Frames(ps) + (Header(size) + after)) == Parsed(ps, [], true)
  {
    RoundTrip(ps, Header(size) + after);
    SizeOfHeader(size);
    assert (Header(size) + after)[..HEADER_SIZE] == Header(size);
  }

  /** A header announcing a mebibyte is read on, and one byte more closes the connection. */
  lemma LargestPacket()
    ensures Parse(Header(1048576)) == Parsed([], Header(1048576), false)
    ensures Parse(Header(1048577)) == Parsed([], [], true)
  {
    SizeOfHeader(1048576);
    SizeOfHeader(1048577);
    assert Header(1048576)[..HEADER_SIZE] == Header(1048576) && Header(1048577)[..HEADER_SIZE] == Header(1048577);
    ParseIncomplete(Header(1048576));
    ParseOversized(Header(1048577));
  }

  // ---- The writer ----

  class Client {
    const writeBuffer: array<Byte>

    constructor ()
      ensures writeBuffer.Length == MAX_PACKET_SIZE + HEADER_SIZE && fresh(writeBuffer)
    {
      writeBuffer := new Byte[MAX_PACKET_SIZE + HEADER_SIZE](_ => 0);
    }

    /** Formats the header and the packet in the buffer and writes them out. */
    method DoSendPacket(packet: seq<Byte>) returns (written: seq<Byte>)
      requires writeBuffer.Length == MAX_PACKET_SIZE + HEADER_SIZE && |packet| <= MAX_PACKET_SIZE
      modifies writeBuffer
      ensures written == Frame(packet)
      ensures writeBuffer[..HEADER_SIZE + |packet|] == written
    {
      var header := Header(|packet|);
      for i := 0 to HEADER_SIZE
        invariant writeBuffer[..i] == header[..i]
      {
        writeBuffer[i] := header[i];
      }
      for i := 0 to |packet|
        invariant writeBuffer[..HEADER_SIZE] == header
        invariant writeBuffer[HEADER_SIZE..HEADER_SIZE + i] == packet[..i]
      {
        writeBuffer[HEADER_SIZE + i] := packet[i];
      }
      written := writeBuffer[..HEADER_SIZE + |packet|];
      assert written == header + packet;
    }
  }

  // ---- The incremental reader ----

  datatype Phase = ReadHeader | ReadPacket | Closed

  class Connection {
    const header: array<Byte>
    const readBuffer: array<Byte>
    var phase: Phase
    var got: nat
    var delivered: seq<seq<Byte>>
    ghost var stream: seq<Byte>

    /** The bytes of the packet being read are where the stream's meaning puts them. */
    ghost predicate Valid()
      reads this, header, readBuffer
    {
      && header != readBuffer && header.Length == HEADER_SIZE && readBuffer.Length == MAX_PACKET_SIZE
      && delivered == Parse(stream).packets
      && (phase == Closed <==> Parse(stream).closed)
      && (phase == ReadHeader ==> got < HEADER_SIZE && Parse(stream).rest == header[..got])
      && (phase == ReadPacket ==>
            && got < SizeIn(header[..]) <= MAX_PACKET_SIZE
            && Parse(stream).rest == header[..] + readBuffer[..got])
    }

    constructor ()
      ensures Valid() && fresh(header) && fresh(readBuffer) && stream == [] && delivered == []
    {
      header := new Byte[HEADER_SIZE](_ => 0);
      readBuffer := new Byte[MAX_PACKET_SIZE](_ => 0);
      phase, got, delivered, stream := ReadHeader, 0, [], [];
    }

    /** A complete header: too large a packet closes the connection. */
    method OnHeaderRead()
      modifies this
      requires header.Length == HEADER_SIZE
      ensures delivered == old(delivered) + if SizeIn(header[..]) == 0 then [[]] else []
      ensures got == 0 && stream == old(stream)
      ensures phase == if SizeIn(header[..]) > MAX_PACKET_SIZE then Closed
                       else if SizeIn(header[..]) == 0 then ReadHeader else ReadPacket
    {
      got := 0;
      var size := SizeIn(header[..]);
      if size > MAX_PACKET_SIZE {
        phase := Closed;
        return;
      }
      phase := ReadPacket;
      if size == 0 {
        OnPacketRead(0);
      }
    }

    /** A complete packet is passed on, and the next header is read. */
    method OnPacketRead(bytes: nat)
      requires bytes <= readBuffer.Length
      modifies this
      ensures delivered == old(delivered) + [readBuffer[..bytes]]
      ensures got == 0 && phase == ReadHeader && stream == old(stream)
    {
      delivered := delivered + [readBuffer[..bytes]];
      phase, got := ReadHeader, 0;
    }

    method OnByte(b: Byte)
      requires Valid()
      modifies this, header, readBuffer
      ensures Valid() && stream == old(stream) + [b]
    {
      hide Parse, SizeIn;
      ghost var before := Parse(stream);
      ParseAppend(stream, [b]);
      stream := stream + [b];
      match phase {
        case Closed =>
        case ReadHeader =>
          ghost var rest := before.rest + [b];
          header[got] := b;
          got := got + 1;
          assert header[..got] == rest;
          HeaderBytes(rest);
          if got == HEADER_SIZE {
            assert header[..] == rest == rest[..HEADER_SIZE];
            OnHeaderRead();
            assert readBuffer[..0] == [] && header[..] + [] == header[..];
          }
        case ReadPacket =>
          ghost var rest := before.rest + [b];
          var size := SizeIn(header[..]);
          readBuffer[got] := b;
          got := got + 1;
          assert rest == header[..] + readBuffer[..got];
          assert rest[..HEADER_SIZE] == header[..];
          PacketBytes(rest);
          if got == size {
            assert rest[HEADER_SIZE..] == readBuffer[..got];
            OnPacketRead(size);
          }
      }
    }

    /** Bytes may come in any portions: after each of them the reader has
        delivered exactly the packets of all the bytes received so far. */
    method OnBytes(chunk: seq<Byte>)
      requires Valid()
      modifies this, header, readBuffer
      ensures Valid() && stream == old(stream) + chunk
      ensures delivered == Parse(old(stream) + chunk).packets
    {
      for i := 0 to |chunk|
        invariant Valid() && stream == old(stream) + chunk[..i]
      {
        OnByte(chunk[i]);
      }
    }
  }

  lemma HeaderBytes(rest: seq<Byte>)
    requires |rest| <= HEADER_SIZE
    ensures Parse(rest) == if |rest| < HEADER_SIZE then Parsed([], rest, false)
                           else if SizeIn(rest) > MAX_PACKET_SIZE then Parsed([], [], true)
                           else if SizeIn(rest) == 0 then Parsed([[]], [], false) else Parsed([], rest, false)
  {
    if |rest| == HEADER_SIZE {
      assert rest[..HEADER_SIZE] == rest && rest[HEADER_SIZE..] == [];
    }
  }

  lemma PacketBytes(rest: seq<Byte>)
    requires |rest| > HEADER_SIZE && SizeIn(rest[..HEADER_SIZE]) <= MAX_PACKET_SIZE
    requires |rest| <= HEADER_SIZE + SizeIn(rest[..HEADER_SIZE])
    ensures Parse(rest) == if |rest| == HEADER_SIZE + SizeIn(rest[..HEADER_SIZE])
                           then Parsed([rest[HEADER_SIZE..]], [], false) else Parsed([], rest, false)
  {
    hide SizeIn;
    var k := HEADER_SIZE + SizeIn(rest[..HEADER_SIZE]);
    if |rest| == k {
      assert rest[k..] == [] && rest[HEADER_SIZE..k] == rest[HEADER_SIZE..];
    }
  }
}
