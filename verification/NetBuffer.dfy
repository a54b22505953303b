/** The circular buffer of a connection (NetBuffer.cpp). */
module NetBuffers {

  type byte = x: int | 0 <= x < 256

  /** The number of unread bytes of a ring of the given size. */
  function Unread(size: nat, start: nat, end: nat, isFull: bool): (n: nat)
    requires start <= size && end <= size
    ensures n <= size
  {
    if isFull then size else if start <= end then end - start else size + end - start
  }

  lemma UnreadFilled(size: nat, start: nat, end: nat, isFull: bool, bytes: nat, end': nat, isFull': bool)
    requires start < size && end < size && (isFull ==> start == end) && bytes <= size - Unread(size, start, end, isFull)
    requires end' == (if end + bytes >= size then end + bytes - size else end + bytes)
      && (isFull' <==> isFull || (bytes != 0 && end' == start))
    ensures end' < size && (isFull' ==> start == end')
      && Unread(size, start, end', isFull') == Unread(size, start, end, isFull) + bytes
  {
  }

  lemma UnreadConsumed(size: nat, start: nat, end: nat, isFull: bool, bytes: nat, start': nat, isFull': bool)
    requires start < size && end < size && (isFull ==> start == end) && bytes <= Unread(size, start, end, isFull)
    requires start' == (if start + bytes >= size then start + bytes - size else start + bytes)
    requires isFull' <==> isFull && bytes == 0
    ensures start' < size && (isFull' ==> start' == end)
    ensures Unread(size, start', end, isFull') == Unread(size, start, end, isFull) - bytes
  {
  }

  lemma UnreadEmpty(size: nat, start: nat, end: nat, isFull: bool)
    requires start <= size && end <= size
    ensures size == 0 ==> Unread(size, start, end, isFull) == 0
  {
  }

  /** The element k places after position s, round the end. */
  function Around(b: seq<byte>, s: nat, k: nat): byte
    requires s <= |b| && k < |b|
  {
    if s + k < |b| then b[s + k] else b[s + k - |b|]
  }

  /** n elements from position s, round the end. */
  function Run(b: seq<byte>, s: nat, n: nat): (r: seq<byte>)
    requires s <= |b| && n <= |b|
    ensures |r| == n
  {
    if s + n <= |b| then b[s..s + n] else b[s..] + b[..s + n - |b|]
  }

  lemma RunAt(b: seq<byte>, s: nat, n: nat, k: nat)
    requires s <= |b| && k < n <= |b|
    ensures Run(b, s, n)[k] == Around(b, s, k)
  {
  }

  function Wrap(b: seq<byte>, i: nat): nat {
    if i >= |b| then i - |b| else i
  }

  lemma RunJoin(b: seq<byte>, s: nat, m: nat, n: nat)
    requires s < |b| && m + n <= |b|
    ensures Run(b, s, m + n) == Run(b, s, m) + Run(b, Wrap(b, s + m), n)
  {
    hide Run;
    var whole, parts := Run(b, s, m + n), Run(b, s, m) + Run(b, Wrap(b, s + m), n);
    forall k | 0 <= k < m + n ensures whole[k] == parts[k] {
      RunAt(b, s, m + n, k);
      if k < m { RunAt(b, s, m, k); } else { RunAt(b, Wrap(b, s + m), n, k - m); }
    }
  }

  /** The first bytes of the space, which begins at e, extend the contents and leave the rest of the space. */
  lemma FillJoins(b: seq<byte>, start: nat, n: nat, e: nat, bytes: nat)
    requires start < |b| && e < |b| && n + bytes <= |b| && Wrap(b, start + n) == e
    ensures Run(b, start, n + bytes) == Run(b, start, n) + Run(b, e, |b| - n)[..bytes]
    ensures Run(b, Wrap(b, e + bytes), |b| - n - bytes) == Run(b, e, |b| - n)[bytes..]
  {
    hide Run;
    RunJoin(b, start, n, bytes);
    RunJoin(b, e, bytes, |b| - n - bytes);
  }

  /** Part of a run lies in the buffer in one piece, or in two round the end. */
  lemma RunSlice(b: seq<byte>, s: nat, n: nat, offset: nat, size: nat)
    requires s < |b| && offset + size <= n <= |b|
    ensures var at := Wrap(b, s + offset);
      Run(b, s, n)[offset..offset + size] == if |b| - at >= size then b[at..at + size]
        else b[at..] + b[..size - (|b| - at)]
  {
    hide Run;
    var at, part := Wrap(b, s + offset), Run(b, s, n)[offset..offset + size];
    var copy := if |b| - at >= size then b[at..at + size] else b[at..] + b[..size - (|b| - at)];
    forall k | 0 <= k < size ensures part[k] == copy[k] {
      RunAt(b, s, n, offset + k);
    }
  }

  function Patched(b: seq<byte>, at: nat, src: seq<byte>): seq<byte>
    requires at + |src| <= |b|
  {
    b[..at] + src + b[at + |src|..]
  }

  lemma PatchedNext(b: seq<byte>, at: nat, src: seq<byte>, i: nat)
    requires at + |src| <= |b| && i < |src|
    ensures Patched(b, at, src[..i])[at + i := src[i]] == Patched(b, at, src[..i + 1])
  {
  }

  /** Writing src into the ring, offset places after position e, in one piece. */
  lemma PatchOne(b: seq<byte>, e: nat, offset: nat, src: seq<byte>)
    requires e < |b| && offset + |src| <= |b| && Wrap(b, e + offset) + |src| <= |b|
    ensures var w := Run(b, e, |b|);
      Run(Patched(b, Wrap(b, e + offset), src), e, |b|) == w[..offset] + src + w[offset + |src|..]
  {
    hide Run;
    var b', w := Patched(b, Wrap(b, e + offset), src), Run(b, e, |b|);
    var w' := w[..offset] + src + w[offset + |src|..];
    forall k | 0 <= k < |b| ensures Run(b', e, |b|)[k] == w'[k] {
      RunAt(b, e, |b|, k);
      RunAt(b', e, |b|, k);
      assert w'[k] == if offset <= k < offset + |src| then src[k - offset] else Around(b, e, k);
    }
  }

  /** Writing src round the end, in two pieces. */
  lemma PatchTwo(b: seq<byte>, e: nat, offset: nat, src: seq<byte>)
    requires e < |b| && offset + |src| <= |b| && Wrap(b, e + offset) + |src| > |b|
    ensures var at, w := Wrap(b, e + offset), Run(b, e, |b|);
      Run(Patched(Patched(b, at, src[..|b| - at]), 0, src[|b| - at..]), e, |b|) ==
        w[..offset] + src + w[offset + |src|..]
  {
    hide Run;
    var at, w := Wrap(b, e + offset), Run(b, e, |b|);
    var n := |b| - at;
    var b' := Patched(Patched(b, at, src[..n]), 0, src[n..]);
    var w' := w[..offset] + src + w[offset + |src|..];
    forall k | 0 <= k < |b| ensures Run(b', e, |b|)[k] == w'[k] {
      RunAt(b, e, |b|, k);
      RunAt(b', e, |b|, k);
      assert w'[k] == if offset <= k < offset + |src| then src[k - offset] else Around(b, e, k);
    }
  }

  lemma PatchSplit(space: seq<byte>, rest: seq<byte>, space': seq<byte>, rest': seq<byte>, offset: nat, src: seq<byte>)
    requires offset + |src| <= |space| == |space'| && |rest| == |rest'|
    requires var w := space + rest; space' + rest' == w[..offset] + src + w[offset + |src|..]
    ensures rest' == rest && space' == space[..offset] + src + space[offset + |src|..]
  {
    var w := space + rest;
    var w' := w[..offset] + src + w[offset + |src|..];
    var n := |space|;
    assert w'[..n] == space[..offset] + src + space[offset + |src|..];
    assert w'[n..] == rest;
    assert (space' + rest')[..n] == space' && (space' + rest')[n..] == rest';
  }

  class NetBuffer {
    var buffer: array<byte>
    var start: nat
    var end: nat
    var isFull: bool

    ghost predicate Valid()
      reads this
    {
      && start <= buffer.Length && end <= buffer.Length
         && (buffer.Length > 0 ==> start < buffer.Length && end < buffer.Length)
      && (isFull ==> start == end && buffer.Length > 0)
    }

    /** How many bytes are unread. */
    ghost function Length(): (n: nat)
      reads this
      requires Valid()
      ensures n <= buffer.Length
    {
      Unread(buffer.Length, start, end, isFull)
    }

    /** The unread bytes, oldest first. */
    ghost function Contents(): (s: seq<byte>)
      reads this, buffer
      requires Valid()
    {
      Run(buffer[..], start, Length())
    }

    /** The whole ring, from end on, is the space and then the contents. */
    lemma Ring()
      requires Valid() && buffer.Length > 0
      ensures Wrap(buffer[..], start + Length()) == end && Wrap(buffer[..], end + (buffer.Length - Length())) == start
      ensures Run(buffer[..], end, buffer.Length) == Space() + Contents()
    {
      RunJoin(buffer[..], end, buffer.Length - Length(), Length());
    }

    lemma FromTheBeginning()
      requires Valid() && start == 0
      ensures Contents() == buffer[..|Contents()|]
    {
    }

    /** The free bytes in the order in which they will be filled. */
    ghost function Space(): (s: seq<byte>)
      reads this, buffer
      requires Valid()
    {
      Run(buffer[..], end, buffer.Length - Length())
    }

    constructor (size: nat)
      ensures Valid() && fresh(buffer) && buffer.Length == size && Contents() == [] && start == 0
    {
      buffer := new byte[size](_ => 0);
      start, end, isFull := 0, 0, false;
    }

    /** Starts over with other memory; the buffer must have been read to the end. */
    method SetBuffer(memory: array<byte>)
      requires Valid() && Contents() == []
      modifies this
      ensures Valid() && buffer == memory && Contents() == [] && start == 0 && Space() == memory[..]
    {
      buffer := memory;
      start, end, isFull := 0, 0, false;
    }

    method IsEmpty() returns (empty: bool)
      requires Valid()
      ensures empty <==> Contents() == []
    {
      empty := start == end && !isFull;
    }

    method ReadAvail() returns (avail: nat)
      requires Valid()
      ensures avail == |Contents()|
    {
      if isFull { return buffer.Length; }
      var d := end - start;
      if d < 0 { d := buffer.Length + d; }
      return d;
    }

    method WriteAvail() returns (avail: nat)
      requires Valid()
      ensures avail == |Space()| == buffer.Length - |Contents()|
    {
      var r := ReadAvail();
      return buffer.Length - r;
    }

    /** Unread bytes that lie in one piece from start. */
    method ContiguousReadAvail() returns (avail: nat)
      requires Valid()
      ensures avail <= |Contents()| && start + avail <= buffer.Length
        && buffer[start..start + avail] == Contents()[..avail]
      ensures avail == 0 <==> Contents() == []
    {
      if isFull { return buffer.Length - start; }
      if end >= start { return end - start; }
      return buffer.Length - start;
    }

    /** Free bytes that lie in one piece from end. */
    method ContiguousWriteAvail() returns (avail: nat)
      requires Valid()
      ensures avail <= |Space()| && end + avail <= buffer.Length && buffer[end..end + avail] == Space()[..avail]
      ensures avail == 0 <==> Space() == []
    {
      if isFull { return 0; }
      if end >= start { return buffer.Length - end; }
      return start - end;
    }

    /** The first bytes have been read. */
    method Consume(bytes: nat)
      requires Valid() && bytes <= |Contents()|
      modifies this`start, this`isFull
      ensures Valid() && Contents() == old(Contents())[bytes..]
    {
      hide Run, Unread;
      ghost var n, s, full := Length(), start, isFull;
      UnreadEmpty(buffer.Length, start, end, isFull);
      if buffer.Length > 0 { RunJoin(buffer[..], start, bytes, n - bytes); }
      start := start + bytes;
      if start >= buffer.Length { start := start - buffer.Length; }
      if bytes != 0 { isFull := false; }
      if buffer.Length > 0 { UnreadConsumed(buffer.Length, s, end, full, bytes, start, isFull); }
    }

    /** The first free bytes hold data now. */
    method Fill(bytes: nat)
      requires Valid() && bytes <= |Space()|
      modifies this`end, this`isFull
      ensures Valid() && start == old(start)
      ensures Contents() == old(Contents()) + old(Space())[..bytes] && Space() == old(Space())[bytes..]
    {
      hide Run, Unread;
      ghost var b, n, e, full := buffer[..], Length(), end, isFull;
      if buffer.Length > 0 {
        Ring();
        FillJoins(b, start, n, e, bytes);
      }
      end := end + bytes;
      if end >= buffer.Length { end := end - buffer.Length; }
      if bytes != 0 && end == start { isFull := true; }
      if buffer.Length > 0 { UnreadFilled(buffer.Length, start, e, full, bytes, end, isFull); }
    }

    /** Writes into the free bytes, from the given offset, without filling them. */
    method CopyFrom(src: seq<byte>, offset: nat)
      requires Valid() && |src| + offset <= |Space()|
      modifies buffer
      ensures Valid() && Contents() == old(Contents())
      ensures Space() == old(Space())[..offset] + src + old(Space())[offset + |src|..]
    {
      hide Run, Patched, Around;
      ghost var b := buffer[..];
      var dest := end + offset;
      if buffer.Length > 0 { Ring(); }
      if dest >= buffer.Length { dest := dest - buffer.Length; }
      var avail := buffer.Length - dest;
      if avail >= |src| {
        Write(dest, src);
        if buffer.Length > 0 { PatchOne(b, end, offset, src); }
      } else {
        Write(dest, src[..avail]);
        Write(0, src[avail..]);
        PatchTwo(b, end, offset, src);
      }
      if buffer.Length > 0 {
        Ring();
        PatchSplit(old(Space()), old(Contents()), Space(), Contents(), offset, src);
      }
    }

    /** memcpy into the buffer. */
    method Write(at: nat, src: seq<byte>)
      requires at + |src| <= buffer.Length
      modifies buffer
      ensures buffer[..] == Patched(old(buffer[..]), at, src)
    {
      var i := 0;
      while i < |src|
        invariant i <= |src| && buffer[..] == Patched(old(buffer[..]), at, src[..i])
      {
        PatchedNext(old(buffer[..]), at, src, i);
        ghost var before := buffer[..];
        buffer[at + i] := src[i];
        assert buffer[..] == before[at + i := src[i]];
        i := i + 1;
      }
      assert src[..i] == src;
    }

    /** Reads unread bytes, from the given offset, without consuming them. */
    method CopyTo(size: nat, offset: nat) returns (dest: seq<byte>)
      requires Valid() && size + offset <= |Contents()|
      ensures dest == Contents()[offset..offset + size]
    {
      hide Run, Around;
      if buffer.Length > 0 { RunSlice(buffer[..], start, Length(), offset, size); }
      var src := start + offset;
      if src >= buffer.Length { src := src - buffer.Length; }
      var avail := buffer.Length - src;
      if avail >= size {
        dest := buffer[src..src + size];
      } else {
        dest := buffer[src..] + buffer[..size - avail];
      }
    }
  }
}
