/** The receiving half of a connection (NetCxn.cpp): reassembly of packets from whatever chunks the
    network delivers, in the connection's own ring, or in a larger one for a packet that does not fit. */
module Receiver {
  import opened Basics
  import opened NetBuffers
  import opened Framing

  /** BufferPool::NextPowerOfTwo: the smallest doubling of p that is at least n. */
  function PoolSize(n: nat, p: nat): (r: nat)
    requires p >= 1
    ensures n <= r && (r == p || r < 2 * n)
    decreases if p < n then n - p else 0
  {
    if p >= n then p else PoolSize(n, 2 * p)
  }

  /** p doubled k times. */
  function Doubled(p: nat, k: nat): nat
    decreases k
  {
    if k == 0 then p else Doubled(2 * p, k - 1)
  }

  lemma {:induction false} PoolAtMost(n: nat, p: nat, k: nat)
    requires p >= 1 && n <= Doubled(p, k)
    ensures p <= Doubled(p, k) && PoolSize(n, p) <= Doubled(p, k)
    decreases k
  {
    if k > 0 {
      DoubledGrows(p, k);
      if p < n { PoolAtMost(n, 2 * p, k - 1); }
    }
  }

  lemma {:induction false} PoolAtLeast(n: nat, p: nat, k: nat)
    requires p >= 1 && n > Doubled(p, k)
    ensures PoolSize(n, p) >= Doubled(p, k + 1)
    decreases k
  {
    DoubledGrows(p, k);
    if k > 0 { PoolAtLeast(n, 2 * p, k - 1); }
  }

  lemma {:induction false} DoubledGrows(p: nat, k: nat)
    ensures p <= Doubled(p, k)
    decreases k
  {
    if k > 0 { DoubledGrows(2 * p, k - 1); }
  }

  /** Memory for a packet has a size that is positive as an int exactly when the packet is not too large. */
  lemma PoolFitsInt(n: nat)
    requires 1 <= n < 0x8000_0000
    ensures PoolSize(n, 1) < TWO_32 && (n <= LARGEST ==> PoolSize(n, 1) <= LARGEST)
      && (n > LARGEST ==> Signed(PoolSize(n, 1)) < 0)
  {
    hide PoolSize, Doubled;
    Thirty();
    if n <= LARGEST { PoolAtMost(n, 1, 30); } else { PoolAtLeast(n, 1, 30); }
  }

  lemma Thirty()
    ensures Doubled(1, 30) == LARGEST && Doubled(1, 31) == 2 * LARGEST
  {
    assert Doubled(0x100_0000, 6) == LARGEST && Doubled(0x100_0000, 7) == 2 * LARGEST;
    assert Doubled(0x1_0000, 14) == LARGEST && Doubled(0x1_0000, 15) == 2 * LARGEST;
    assert Doubled(0x100, 22) == LARGEST && Doubled(0x100, 23) == 2 * LARGEST;
  }

  /** The stream so far parses to the packets handed on, then as the bytes still buffered do. */
  ghost predicate Synced(f: Checksum, max: nat, received: seq<byte>, delivered: seq<Packet>, contents: seq<byte>) {
    ParseAll(f, max, received) == After(delivered, ParseAll(f, max, contents))
  }

  lemma SyncedMore(f: Checksum, max: nat, received: seq<byte>, delivered: seq<Packet>, contents: seq<byte>,
      data: seq<byte>)
    requires Synced(f, max, received, delivered, contents) && ParseAll(f, max, contents) == Parse([], contents, false)
    ensures Synced(f, max, received + data, delivered, contents + data)
  {
    hide ParseAll;
    ParseAppend(f, max, received, data);
    assert delivered + [] == delivered;
  }

  lemma SyncedNext(f: Checksum, max: nat, received: seq<byte>, delivered: seq<Packet>, contents: seq<byte>)
    requires Synced(f, max, received, delivered, contents) && |contents| >= HEADER_SIZE
    requires var h := DecodeHeader(contents);
      HeaderOk(h, max) && h.size <= |contents| && ChecksumMatches(f, contents[..h.size])
    ensures var n := DecodeHeader(contents).size;
      Synced(f, max, received, delivered + [PacketOf(contents[..n])], contents[n..])
  {
    var n := DecodeHeader(contents).size;
    var q := ParseAll(f, max, contents[n..]);
    assert ParseAll(f, max, contents) == q.(packets := [PacketOf(contents[..n])] + q.packets);
    assert delivered + ([PacketOf(contents[..n])] + q.packets) == (delivered + [PacketOf(contents[..n])]) + q.packets;
  }

  /** A malformed header or checksum: the stream is bad from here on. */
  lemma SyncedBad(f: Checksum, max: nat, received: seq<byte>, delivered: seq<Packet>, contents: seq<byte>)
    requires Synced(f, max, received, delivered, contents) && |contents| >= HEADER_SIZE
    requires var h := DecodeHeader(contents);
      !HeaderOk(h, max) || (h.size <= |contents| && !ChecksumMatches(f, contents[..h.size]))
    ensures ParseAll(f, max, received).bad && ParseAll(f, max, received).packets == delivered
  {
    assert delivered + [] == delivered;
  }

  /** The unread bytes of a ring move to the beginning of other memory. */
  method MoveInto(net: NetBuffer, memory: array<byte>)
    requires net.Valid() && |net.Contents()| <= memory.Length && net.buffer != memory
    modifies net, memory
    ensures net.Valid() && net.buffer == memory && net.Contents() == old(net.Contents()) && net.start == 0
  {
    hide Run, Unread;
    var bytesRead := net.ReadAvail();
    var bytes := net.CopyTo(bytesRead, 0);
    assert bytes == net.Contents();
    net.Consume(bytesRead);
    net.SetBuffer(memory);
    net.CopyFrom(bytes, 0);
    net.Fill(bytesRead);
    assert net.Contents() == bytes;
  }

  class Connection {
    const f: Checksum
    const max: nat
    const internal: array<byte>
    const net: NetBuffer
    var header: Option<Header>
    var todo: Option<nat>
    var closed: bool
    /** An assertion failed or memory beyond the buffer was touched: the process is lost. */
    var failed: bool
    var delivered: seq<Packet>
    ghost var received: seq<byte>

    /** The header read ahead, if any, and the ring it is being completed in. */
    ghost predicate Framed()
      reads this, net, net.buffer
    {
      && net.Valid() && max < TWO_32 && HEADER_SIZE <= internal.Length && net.buffer.Length <= LARGEST
         && internal.Length <= LARGEST
      && (header.Some? ==>
         |net.Contents()| >= HEADER_SIZE && header.value == DecodeHeader(net.Contents()) && HeaderOk(header.value, max))
      && (net.buffer == internal ==> todo.None?)
      && (net.buffer != internal ==>
            header.Some? && todo.Some? && net.start == 0 && header.value.size <= net.buffer.Length
              && todo.value + |net.Contents()| == header.value.size)
    }

    /** Between events: the packets handed on are those of the stream, only an incomplete packet is
        buffered, it fits, a connection is closed exactly when its stream is malformed and lost exactly when
        a packet is too large. */
    ghost predicate Valid()
      reads this, net, net.buffer
    {
      && Framed()
      && (closed ==> !failed && ParseAll(f, max, received).bad && ParseAll(f, max, received).packets == delivered)
      && (!closed ==>
            && ParseAll(f, max, received) == Parse(delivered, net.Contents(), false)
            && (header.Some? <==> |net.Contents()| >= HEADER_SIZE)
            && (header.Some? ==> |net.Contents()| < header.value.size)
            && (failed <==> header.Some? && header.value.size > LARGEST)
            && (header.Some? && !failed ==> header.value.size <= net.buffer.Length))
    }

    constructor (f: Checksum, max: nat, size: nat)
      requires max < TWO_32 && HEADER_SIZE <= size <= LARGEST
      ensures Valid() && !closed && !failed && received == [] && delivered == [] && this.f == f && this.max == max
      ensures header.None? && todo.None? && net.Contents() == []
      ensures fresh(net) && fresh(net.buffer) && net.buffer == internal && internal.Length == PoolSize(size, 1)
    {
      this.f, this.max := f, max;
      PoolFitsInt(size);
      var n := new NetBuffer(PoolSize(size, 1));
      net, internal := n, n.buffer;
      header, todo, closed, failed, delivered, received := None, None, false, false, [], [];
    }

    /** A read completes with these bytes; at most what was asked for, which is what the ring has room
        for and, for a large packet, what is missing of it. */
    method Receive(data: seq<byte>)
      requires Valid() && !closed && !failed && |data| <= |net.Space()| && (todo.Some? ==> |data| <= todo.value)
      modifies this, net, net.buffer
      ensures Valid() && received == old(received) + data && old(delivered) <= delivered
      ensures net.buffer == internal || net.buffer == old(net.buffer) || fresh(net.buffer)
    {
      hide ParseAll, DecodeHeader, ChecksumMatches, PacketOf, Run, Unread;
      ghost var had := net.Contents();
      RestIncomplete(f, max, received);
      SyncedMore(f, max, received, delivered, had, data);
      net.CopyFrom(data, 0);
      net.Fill(|data|);
      assert net.Contents() == had + data;
      if todo.Some? { todo := Some(todo.value - |data|); }
      received := received + data;
      if header.Some? { HeaderOfPrefix(had, data); }
      ReadReady();
    }

    /** ReadReadyInternal */
    method ReadReady()
      requires Framed() && !closed && !failed && Synced(f, max, received, delivered, net.Contents())
      modifies this, net, net.buffer
      ensures Valid() && received == old(received) && old(delivered) <= delivered
      ensures net.buffer == internal || net.buffer == old(net.buffer) || fresh(net.buffer)
    {
      hide ParseAll, DecodeHeader, ChecksumMatches, PacketOf, Run, Unread;
      var usingInternal := net.buffer == internal;
      var avail := net.ReadAvail();
      while avail >= HEADER_SIZE
        invariant Framed() && !closed && !failed && Synced(f, max, received, delivered, net.Contents())
          && avail == |net.Contents()|
        invariant usingInternal == (net.buffer == internal) && net.buffer == old(net.buffer)
        invariant received == old(received) && old(delivered) <= delivered
        invariant header.Some? ==> avail >= HEADER_SIZE
        decreases avail
      {
        var ok := PeekHeader();
        if !ok { return; }
        var n := header.value.size;
        if Signed(n) <= avail {
          if n > avail {
            // the length is negative as an int: the pool's assertion fails, or the copy runs past the buffer
            failed := true;
            Incomplete();
            return;
          }
          ok := TakePacket(usingInternal);
          if !ok || !usingInternal { return; }
        } else if Signed(n) > net.buffer.Length {
          assert usingInternal;
          ReadMoreData(n);
          return;
        } else {
          Incomplete();
          return;
        }
        avail := net.ReadAvail();
      }
      Incomplete();
    }

    /** What is left buffered is the incomplete rest of the stream. */
    lemma Incomplete()
      requires Framed() && Synced(f, max, received, delivered, net.Contents())
      requires |net.Contents()| < HEADER_SIZE || (header.Some? && header.value.size > |net.Contents()|)
      ensures ParseAll(f, max, received) == Parse(delivered, net.Contents(), false)
    {
      assert delivered + [] == delivered;
    }

    /** DeSerializeHeader, once for a packet. */
    method PeekHeader() returns (ok: bool)
      requires Framed() && !closed && !failed && Synced(f, max, received, delivered, net.Contents())
        && |net.Contents()| >= HEADER_SIZE
      modifies this`header, this`closed
      ensures Framed() && (ok ==> !closed && header.Some?) && (!ok ==> closed && Valid())
    {
      hide ParseAll, DecodeHeader, ChecksumMatches, PacketOf, Run, Unread;
      if header.None? {
        var bytes := net.CopyTo(HEADER_SIZE, 0);
        var h := DecodeHeader(bytes);
        assert net.Contents() == bytes + net.Contents()[HEADER_SIZE..];
        HeaderOfPrefix(bytes, net.Contents()[HEADER_SIZE..]);
        if !HeaderOk(h, max) {
          SyncedBad(f, max, received, delivered, net.Contents());
          closed := true;
          return false;
        }
        header := Some(h);
      }
      return true;
    }

    /** A whole packet is there: DeSerialize it, drop it from the ring and hand it on. */
    method TakePacket(usingInternal: bool) returns (ok: bool)
      requires Framed() && !closed && !failed && Synced(f, max, received, delivered, net.Contents())
        && usingInternal == (net.buffer == internal)
      requires header.Some? && header.value.size <= |net.Contents()|
      modifies this`header, this`todo, this`closed, this`delivered, net
      ensures !ok ==> closed && Valid() && delivered == old(delivered) && net.buffer == old(net.buffer)
      ensures ok ==>
        !closed && Framed() && header.None? && Synced(f, max, received, delivered, net.Contents())
        && old(delivered) <= delivered
      ensures ok ==> net.buffer == internal && |net.Contents()| + old(header.value.size) == old(|net.Contents()|)
      ensures ok && !usingInternal ==> Valid()
    {
      hide ParseAll, DecodeHeader, ChecksumMatches, PacketOf, Run, Unread;
      ghost var contents := net.Contents();
      var n := header.value.size;
      var frame;
      if usingInternal {
        frame := net.CopyTo(n, 0);
      } else {
        // the packet takes over the memory it was read into, where it starts at the beginning
        frame := net.buffer[..n];
        net.FromTheBeginning();
      }
      assert frame == contents[..n];
      if !ChecksumMatches(f, frame) {
        SyncedBad(f, max, received, delivered, contents);
        closed := true;
        return false;
      }
      SyncedNext(f, max, received, delivered, contents);
      net.Consume(n);
      header := None;
      if !usingInternal {
        net.SetBuffer(internal);
        todo := None;
      }
      delivered := delivered + [PacketOf(frame)];
      if !usingInternal { Incomplete(); }
      return true;
    }

    /** The packet does not fit into the connection's own ring: go on in one from the pool, asking for
        no more than is missing of this packet. */
    method ReadMoreData(totalLength: nat)
      requires Framed() && !closed && !failed && Synced(f, max, received, delivered, net.Contents())
        && net.buffer == internal
      requires header.Some? && header.value.size == totalLength > net.buffer.Length
      requires totalLength < 0x8000_0000
      modifies this`todo, this`failed, net
      ensures Valid() && !closed && net.Contents() == old(net.Contents()) && (failed <==> totalLength > LARGEST)
      ensures if failed then net.buffer == old(net.buffer) else fresh(net.buffer)
    {
      hide ParseAll, DecodeHeader, ChecksumMatches, PacketOf, Run, Unread, PoolSize;
      var size := PoolSize(totalLength, 1);
      var bytesRead := net.ReadAvail();
      PoolFitsInt(totalLength);
      if bytesRead > Signed(size) {
        // Fill's assertion about the size of the new memory
        failed := true;
        Incomplete();
        return;
      }
      var pool := new byte[size](_ => 0);
      MoveInto(net, pool);
      todo := Some(totalLength - bytesRead);
      Incomplete();
    }

    /** The connection is lost exactly when the stream so far announces a packet that is too large; with a
        largest size of at most LARGEST it never is. */
    lemma LostExactly()
      requires Valid()
      ensures failed <==> TooLarge(ParseAll(f, max, received))
      ensures max <= LARGEST ==> !failed
    {
    }

    /** An open connection always has room for the next read, and something to read. */
    lemma ReadsOn()
      requires Valid() && !closed && !failed
      ensures |net.Space()| > 0 && (todo.Some? ==> todo.value > 0)
    {
    }

    /** End to end: of any packets that were serialized and sent, however the network cut them up, what
        has arrived so far is handed on as the same packets in the same order; and when everything has
        arrived, everything has been handed on and nothing stays behind. The connection is lost exactly when it
        comes to a packet that is too large. */
    lemma EndToEnd(ps: seq<Packet>, n: nat)
      requires Valid() && (forall p <- ps :: Fits(p, max)) && n <= |SerializeAll(f, ps)|
        && received == SerializeAll(f, ps)[..n]
      ensures !closed && delivered <= ps && (n == |SerializeAll(f, ps)| ==> delivered == ps && net.Contents() == [])
      ensures failed <==>
        |net.Contents()| >= HEADER_SIZE && |delivered| < |ps| && HEADER_SIZE + |ps[|delivered|].payload| > LARGEST
    {
      hide ParseAll, SerializeAll, Serialize;
      PrefixParses(f, max, ps, n);
      if |net.Contents()| >= HEADER_SIZE { NextPacket(f, max, ps, n); }
      if n == |SerializeAll(f, ps)| {
        assert SerializeAll(f, ps)[..n] == SerializeAll(f, ps);
        RoundTrip(f, max, ps);
      }
    }
  }

  /** A connection that lets larger packets through is lost on the header of one. */
  method Lost(f: Checksum, max: nat, size: nat) returns (c: Connection)
    requires LARGEST < max < TWO_32 && HEADER_SIZE <= size <= LARGEST
    ensures c.Valid() && c.failed && |c.received| == HEADER_SIZE
  {
    hide ParseAll, DecodeHeader, EncodeHeader;
    c := new Connection(f, max, size);
    var h := Header(LARGEST + 1, 0, 0, 0);
    HeaderRoundTrip(h, []);
    assert EncodeHeader(h) + [] == EncodeHeader(h) && [] + EncodeHeader(h) == EncodeHeader(h);
    c.Receive(EncodeHeader(h));
    AnnouncedTooLarge(f, max);
    c.LostExactly();
  }
}
