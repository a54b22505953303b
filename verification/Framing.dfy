/** Packets on the wire (NetPacket.cpp, PacketHdr.h): serialization, and what a byte stream parses to. */
module Framing {
  import opened NetBuffers

  /** PacketHdr::SerialLen: three 32-bit words and a 64-bit checksum. */
  const HEADER_SIZE: nat := 20

  const TWO_32: nat := 0x1_0000_0000
  const TWO_64: nat := 0x1_0000_0000_0000_0000

  datatype Packet = Packet(proto: nat, xid: nat, payload: seq<byte>)

  datatype Header = Header(size: nat, proto: nat, xid: nat, checksum: nat)

  /** Utils::CalculateChecksum, of which nothing is assumed. */
  type Checksum = seq<byte> -> nat

  // ---------------------------------------------------------------- fixed-width numbers

  /** n in k bytes. */
  function Bytes(n: nat, k: nat): (s: seq<byte>)
    ensures |s| == k
  {
    if k == 0 then [] else [n % 256] + Bytes(n / 256, k - 1)
  }

  function Value(s: seq<byte>): nat {
    if s == [] then 0 else s[0] + 256 * Value(s[1..])
  }

  function Limit(k: nat): nat {
    if k == 0 then 1 else 256 * Limit(k - 1)
  }

  lemma {:induction false} ValueOfBytes(n: nat, k: nat)
    requires n < Limit(k)
    ensures Value(Bytes(n, k)) == n
  {
    if k > 0 {
      ValueOfBytes(n / 256, k - 1);
      assert Bytes(n, k)[1..] == Bytes(n / 256, k - 1);
    }
  }

  lemma Limits()
    ensures Limit(4) == TWO_32 && Limit(8) == TWO_64
  {
    assert Limit(2) == 65536;
    assert Limit(3) == 16777216;
    assert Limit(4) == TWO_32;
    assert Limit(5) == 256 * TWO_32;
    assert Limit(6) == 65536 * TWO_32;
    assert Limit(7) == 16777216 * TWO_32;
  }

  // ---------------------------------------------------------------- headers

  function EncodeHeader(h: Header): (s: seq<byte>)
    ensures |s| == HEADER_SIZE
  {
    Bytes(h.size, 4) + Bytes(h.proto, 4) + Bytes(h.xid, 4) + Bytes(h.checksum, 8)
  }

  function DecodeHeader(s: seq<byte>): Header
    requires |s| >= HEADER_SIZE
  {
    Header(Value(s[..4]), Value(s[4..8]), Value(s[8..12]), Value(s[12..20]))
  }

  lemma HeaderRoundTrip(h: Header, rest: seq<byte>)
    requires h.size < TWO_32 && h.proto < TWO_32 && h.xid < TWO_32 && h.checksum < TWO_64
    ensures DecodeHeader(EncodeHeader(h) + rest) == h
  {
    hide Bytes, Value, Limit;
    Limits();
    ValueOfBytes(h.size, 4);
    ValueOfBytes(h.proto, 4);
    ValueOfBytes(h.xid, 4);
    ValueOfBytes(h.checksum, 8);
    var s := EncodeHeader(h) + rest;
    assert s[..4] == Bytes(h.size, 4) && s[4..8] == Bytes(h.proto, 4) && s[8..12] == Bytes(h.xid, 4)
      && s[12..20] == Bytes(h.checksum, 8);
  }

  lemma HeaderOfPrefix(s: seq<byte>, t: seq<byte>)
    requires |s| >= HEADER_SIZE
    ensures DecodeHeader(s + t) == DecodeHeader(s)
  {
    hide Value;
    assert (s + t)[..4] == s[..4] && (s + t)[4..8] == s[4..8] && (s + t)[8..12] == s[8..12]
      && (s + t)[12..20] == s[12..20];
  }

  /** PacketHdr::SetChecksum on a whole packet. */
  function WithChecksum(frame: seq<byte>, checksum: nat): (s: seq<byte>)
    requires |frame| >= HEADER_SIZE
    ensures |s| == |frame|
  {
    frame[..12] + Bytes(checksum, 8) + frame[20..]
  }

  // ---------------------------------------------------------------- packets

  predicate Fits(p: Packet, max: nat) {
    p.proto < TWO_32 && p.xid < TWO_32 && HEADER_SIZE + |p.payload| < TWO_32 && HEADER_SIZE + |p.payload| <= max
  }

  function Serialize(f: Checksum, p: Packet): (s: seq<byte>)
    ensures |s| == HEADER_SIZE + |p.payload|
  {
    var blank := EncodeHeader(Header(HEADER_SIZE + |p.payload|, p.proto, p.xid, 0)) + p.payload;
    WithChecksum(blank, f(blank) % TWO_64)
  }

  function SerializeAll(f: Checksum, ps: seq<Packet>): seq<byte> {
    if ps == [] then [] else Serialize(f, ps[0]) + SerializeAll(f, ps[1..])
  }

  /** DeSerialize on the bytes of a whole packet. */
  predicate ChecksumMatches(f: Checksum, frame: seq<byte>)
    requires |frame| >= HEADER_SIZE
  {
    f(WithChecksum(frame, 0)) % TWO_64 == DecodeHeader(frame).checksum
  }

  predicate HeaderOk(h: Header, max: nat) { HEADER_SIZE <= h.size <= max }

  function PacketOf(frame: seq<byte>): Packet
    requires |frame| >= HEADER_SIZE
  {
    Packet(DecodeHeader(frame).proto, DecodeHeader(frame).xid, frame[HEADER_SIZE..])
  }

  // ---------------------------------------------------------------- streams

  /** The packets at the front of a stream, what is left, and whether it is malformed there. */
  datatype Parse = Parse(packets: seq<Packet>, rest: seq<byte>, bad: bool)

  function ParseAll(f: Checksum, max: nat, s: seq<byte>): Parse
    decreases |s|
  {
    if |s| < HEADER_SIZE then Parse([], s, false)
    else
      var h := DecodeHeader(s);
      if !HeaderOk(h, max) then Parse([], s, true)
      else if h.size > |s| then Parse([], s, false)
      else if !ChecksumMatches(f, s[..h.size]) then Parse([], s, true)
      else var q := ParseAll(f, max, s[h.size..]); q.(packets := [PacketOf(s[..h.size])] + q.packets)
  }

  /** First some packets, then what follows parses on its own. */
  function After(packets: seq<Packet>, q: Parse): Parse {
    q.(packets := packets + q.packets)
  }

  /** A whole packet is at the front. */
  predicate Ready(f: Checksum, max: nat, s: seq<byte>) {
    |s| >= HEADER_SIZE && HeaderOk(DecodeHeader(s), max) && DecodeHeader(s).size <= |s|
      && ChecksumMatches(f, s[..DecodeHeader(s).size])
  }

  /** What is at the front can never become a packet. */
  predicate Broken(f: Checksum, max: nat, s: seq<byte>) {
    |s| >= HEADER_SIZE && var h := DecodeHeader(s);
      !HeaderOk(h, max) || (h.size <= |s| && !ChecksumMatches(f, s[..h.size]))
  }

  lemma ParseFront(f: Checksum, max: nat, s: seq<byte>)
    requires Ready(f, max, s)
    ensures var n := DecodeHeader(s).size; ParseAll(f, max, s) == After([PacketOf(s[..n])], ParseAll(f, max, s[n..]))
  {
  }

  lemma ParseHalts(f: Checksum, max: nat, s: seq<byte>)
    requires !Ready(f, max, s)
    ensures ParseAll(f, max, s) == Parse([], s, Broken(f, max, s))
  {
  }

  lemma AppendKeeps(f: Checksum, max: nat, s: seq<byte>, t: seq<byte>)
    ensures Broken(f, max, s) ==> Broken(f, max, s + t)
    ensures Ready(f, max, s) ==>
            var n := DecodeHeader(s).size;
            DecodeHeader(s + t).size == n && (s + t)[..n] == s[..n] && (s + t)[n..] == s[n..] + t
              && Ready(f, max, s + t)
  {
    hide DecodeHeader, ChecksumMatches;
    if |s| >= HEADER_SIZE {
      HeaderOfPrefix(s, t);
      var h := DecodeHeader(s);
      if HeaderOk(h, max) && h.size <= |s| {
        assert (s + t)[..h.size] == s[..h.size] && (s + t)[h.size..] == s[h.size..] + t;
      }
    }
  }

  lemma {:induction false} ParseAppend(f: Checksum, max: nat, s: seq<byte>, t: seq<byte>)
    ensures var p := ParseAll(f, max, s);
      if p.bad then ParseAll(f, max, s + t).bad && ParseAll(f, max, s + t).packets == p.packets
      else ParseAll(f, max, s + t) == After(p.packets, ParseAll(f, max, p.rest + t))
    decreases |s|
  {
    hide DecodeHeader, ChecksumMatches, PacketOf, ParseAll, Broken;
    AppendKeeps(f, max, s, t);
    if Ready(f, max, s) {
      ParseFront(f, max, s);
      ParseFront(f, max, s + t);
      ParseAppend(f, max, s[DecodeHeader(s).size..], t);
    } else {
      ParseHalts(f, max, s);
      if Broken(f, max, s) {
        assert !Ready(f, max, s + t) by { BrokenNotReady(f, max, s + t); }
        ParseHalts(f, max, s + t);
      }
    }
  }

  lemma BrokenNotReady(f: Checksum, max: nat, s: seq<byte>)
    ensures !(Broken(f, max, s) && Ready(f, max, s))
  {
  }

  lemma FrameParses(f: Checksum, max: nat, p: Packet, rest: seq<byte>)
    requires Fits(p, max)
    ensures ParseAll(f, max, Serialize(f, p) + rest) == After([p], ParseAll(f, max, rest))
  {
    hide ParseAll, Bytes, Value, DecodeHeader;
    var n := HEADER_SIZE + |p.payload|;
    var blank := EncodeHeader(Header(n, p.proto, p.xid, 0)) + p.payload;
    var h := Header(n, p.proto, p.xid, f(blank) % TWO_64);
    var frame := Serialize(f, p);
    assert frame == EncodeHeader(h) + p.payload;
    HeaderRoundTrip(h, p.payload + rest);
    assert frame + rest == EncodeHeader(h) + (p.payload + rest);
    HeaderRoundTrip(h, p.payload);
    assert WithChecksum(frame, 0) == blank;
    assert (frame + rest)[..n] == frame && (frame + rest)[n..] == rest;
    ParseFront(f, max, frame + rest);
  }

  /** Serializing and parsing again gives the same packets, in order, for any checksum function. */
  lemma {:induction false} RoundTrip(f: Checksum, max: nat, ps: seq<Packet>)
    requires forall p <- ps :: Fits(p, max)
    ensures ParseAll(f, max, SerializeAll(f, ps)) == Parse(ps, [], false)
  {
    if ps != [] {
      RoundTrip(f, max, ps[1..]);
      FrameParses(f, max, ps[0], SerializeAll(f, ps[1..]));
    }
  }

  /** A cut anywhere in such a stream gives the first packets, and the rest of the stream the rest. */
  lemma PrefixParses(f: Checksum, max: nat, ps: seq<Packet>, n: nat)
    requires (forall p <- ps :: Fits(p, max)) && n <= |SerializeAll(f, ps)|
    ensures var p := ParseAll(f, max, SerializeAll(f, ps)[..n]); !p.bad && p.packets <= ps
  {
    hide ParseAll, SerializeAll;
    var s := SerializeAll(f, ps);
    RoundTrip(f, max, ps);
    ParseAppend(f, max, s[..n], s[n..]);
    assert s[..n] + s[n..] == s;
  }

  /** What is left after parsing is no whole packet. */
  lemma {:induction false} RestIncomplete(f: Checksum, max: nat, s: seq<byte>)
    ensures var p := ParseAll(f, max, s); !p.bad ==> ParseAll(f, max, p.rest) == Parse([], p.rest, false)
    decreases |s|
  {
    if |s| >= HEADER_SIZE && HeaderOk(DecodeHeader(s), max) && DecodeHeader(s).size <= |s| {
      RestIncomplete(f, max, s[DecodeHeader(s).size..]);
    }
  }

  // ---------------------------------------------------------------- lengths as signed numbers

  /** The largest packet whose memory from the pool still has a size that is positive as an int. */
  const LARGEST: nat := 0x4000_0000

  /** A 32-bit word as an int. */
  function Signed(n: nat): int
    requires n < TWO_32
  {
    if n < 0x8000_0000 then n else n - TWO_32
  }

  /** The next packet announces more than LARGEST bytes. */
  predicate TooLarge(p: Parse) {
    !p.bad && |p.rest| >= HEADER_SIZE && DecodeHeader(p.rest).size > LARGEST
  }

  lemma AnnouncedTooLarge(f: Checksum, max: nat)
    requires LARGEST < max < TWO_32
    ensures TooLarge(ParseAll(f, max, EncodeHeader(Header(LARGEST + 1, 0, 0, 0))))
  {
    hide DecodeHeader, EncodeHeader;
    var h := Header(LARGEST + 1, 0, 0, 0);
    HeaderRoundTrip(h, []);
    assert EncodeHeader(h) + [] == EncodeHeader(h);
  }

  /** In a beginning of the stream of some packets, what is left starts with the header of the next one. */
  lemma NextPacket(f: Checksum, max: nat, ps: seq<Packet>, n: nat)
    requires (forall p <- ps :: Fits(p, max)) && n <= |SerializeAll(f, ps)|
    requires |ParseAll(f, max, SerializeAll(f, ps)[..n]).rest| >= HEADER_SIZE
    ensures var p := ParseAll(f, max, SerializeAll(f, ps)[..n]);
      |p.packets| < |ps| && DecodeHeader(p.rest).size == HEADER_SIZE + |ps[|p.packets|].payload|
  {
    hide ParseAll, SerializeAll, DecodeHeader, ChecksumMatches;
    var s := SerializeAll(f, ps);
    var p, t := ParseAll(f, max, s[..n]), s[n..];
    PrefixParses(f, max, ps, n);
    RoundTrip(f, max, ps);
    ParseAppend(f, max, s[..n], t);
    assert s[..n] + t == s;
    HeaderOfPrefix(p.rest, t);
    if Ready(f, max, p.rest + t) {
      ParseFront(f, max, p.rest + t);
    } else {
      ParseHalts(f, max, p.rest + t);
    }
  }

  lemma RestSmall(f: Checksum, max: nat, s: seq<byte>)
    requires max <= LARGEST
    ensures !TooLarge(ParseAll(f, max, s))
  {
    hide DecodeHeader;
    RestIncomplete(f, max, s);
  }

  /** No stream announces such a packet exactly when the largest size let through is small enough. */
  lemma NeverTooLargeExactly(max: nat)
    requires max < TWO_32
    ensures (forall f: Checksum, s :: !TooLarge(ParseAll(f, max, s))) <==> max <= LARGEST
  {
    hide DecodeHeader, EncodeHeader, ParseAll;
    if max <= LARGEST {
      forall f: Checksum, s ensures !TooLarge(ParseAll(f, max, s)) { RestSmall(f, max, s); }
    } else {
      AnnouncedTooLarge(x => 0, max);
    }
  }

  /** RSLConfig: the largest message in megabytes, with 1 KB for headers, in 32 bits. */
  function MaxMessageSize(mb: nat): (max: nat)
    ensures max < TWO_32
  {
    (mb * 0x10_0000 + 1024) % TWO_32
  }

  /** So a configuration is safe exactly when its megabytes, modulo 4096, are below 1024. */
  lemma ConfiguredSafely(mb: nat)
    ensures (forall f: Checksum, s :: !TooLarge(ParseAll(f, MaxMessageSize(mb), s))) <==> mb % 4096 < 1024
  {
    hide ParseAll, TooLarge;
    NeverTooLargeExactly(MaxMessageSize(mb));
    assert mb * 0x10_0000 + 1024 == (mb / 4096) * TWO_32 + (mb % 4096) * 0x10_0000 + 1024;
    Remainder(mb / 4096, (mb % 4096) * 0x10_0000 + 1024);
  }

  lemma Remainder(q: nat, r: nat)
    requires r < TWO_32
    ensures (q * TWO_32 + r) % TWO_32 == r
  {
  }
}
