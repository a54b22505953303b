/** The log file of RSL: the gather write that hands whole buffers to the disk page by page, and the
    index from decrees to the offsets of their votes. */
module LogFiles {
  import opened Basics
  import opened Bits
  import opened LogRecords

  const SYSTEM_PAGE: nat := 4096
  const PAGES_PER_WRITE: nat := 512
  const MAX_WRITE: nat := 0x20_0000
  const WORD: nat := 0x1_0000_0000
  const MAX_SINGLE_IO: nat := 0x200_0000
  const SAFE_ALIGNMENT: nat := 0x10_0000

  type Buffer = b: seq<Byte> | |b| < WORD witness []

  /** Done, an error from the disk, or a failed LogAssert, which stops the process. */
  datatype Outcome = Done | Failed | Asserted

  /** One call of WriteFileGather: the first bytes of the segments, one after the other, go to offset. */
  datatype Gather = Gather(offset: nat, segments: seq<seq<Byte>>, bytes: nat)

  function Concat(bufs: seq<seq<Byte>>): seq<Byte> {
    if bufs == [] then [] else Concat(bufs[..|bufs| - 1]) + bufs[|bufs| - 1]
  }

  /** The disk after data has been written at an offset; a gap is filled with zeros. */
  function WriteAt(disk: seq<Byte>, offset: nat, data: seq<Byte>): seq<Byte> {
    if data == [] then disk
    else if offset > |disk| then disk + seq(offset - |disk|, _ => 0) + data
    else disk[..offset] + data + if offset + |data| < |disk| then disk[offset + |data|..] else []
  }

  ghost predicate GatherOk(g: Gather) {
    |g.segments| <= PAGES_PER_WRITE && g.bytes <= MAX_WRITE && g.bytes <= |Concat(g.segments)|
  }

  ghost function DataOf(g: Gather): seq<Byte>
    requires GatherOk(g)
  {
    Concat(g.segments)[..g.bytes]
  }

  ghost predicate GathersOk(gs: seq<Gather>) {
    forall k :: 0 <= k < |gs| ==> GatherOk(gs[k])
  }

  ghost function Written(gs: seq<Gather>): seq<Byte>
    requires GathersOk(gs)
  {
    if gs == [] then [] else Written(gs[..|gs| - 1]) + DataOf(gs[|gs| - 1])
  }

  /** Each call starts where the one before it ended. */
  ghost predicate Contiguous(gs: seq<Gather>, start: nat)
    requires GathersOk(gs)
  {
    forall k :: 0 <= k < |gs| ==> gs[k].offset == start + |Written(gs[..k])|
  }

  /** What the assertions of the write demand: whole pages, and whole system pages but for the last buffer. */
  predicate Aligned(bufs: seq<Buffer>) {
    forall i :: 0 <= i < |bufs| ==> |bufs[i]| % PAGE == 0 && (i < |bufs| - 1 ==> |bufs[i]| % SYSTEM_PAGE == 0)
  }

  /** The 32-bit byte count never wraps: what is pending when a buffer is added, plus the buffer, fits. */
  ghost predicate NoWrap(bufs: seq<Buffer>) {
    forall i :: 0 <= i < |bufs| ==> |Concat(bufs[..i])| % MAX_WRITE + |bufs[i]| < WORD
  }

  // ---------------------------------------------------------------- how far a write has come

  /** All pages handed over so far, whether or not the byte counts covered them. */
  ghost function Pages(gs: seq<Gather>): seq<Byte> {
    if gs == [] then [] else Pages(gs[..|gs| - 1]) + Concat(gs[|gs| - 1].segments)
  }

  /** taken: the bytes already cut into pages; rest: those of the current buffer that are not; segs: the
      pages collected for the next call; bytes: the 32-bit count, which wrapped so many times. */
  datatype Stage = Stage(taken: seq<Byte>, rest: nat, segs: seq<seq<Byte>>, bytes: nat, gs: seq<Gather>, wraps: nat)

  ghost predicate Staged(st: Stage, start: nat) {
    && GathersOk(st.gs) && Contiguous(st.gs, start)
    && st.taken == Pages(st.gs) + Concat(st.segs)
    && |Concat(st.segs)| <= SYSTEM_PAGE * |st.segs|
    && st.bytes <= |Concat(st.segs)| + st.rest
    && |Written(st.gs)| + st.bytes + WORD * st.wraps == |st.taken| + st.rest
    && (st.wraps == 0 ==> Written(st.gs) == Pages(st.gs))
  }

  /** No page so far was cut short. */
  ghost predicate Full(st: Stage) {
    |Concat(st.segs)| == SYSTEM_PAGE * |st.segs| && |Pages(st.gs)| == MAX_WRITE * |st.gs|
  }

  lemma ConcatNone()
    ensures Concat([]) == []
  {
  }

  lemma ConcatAdd(bufs: seq<seq<Byte>>, b: seq<Byte>)
    ensures Concat(bufs + [b]) == Concat(bufs) + b
  {
    assert (bufs + [b])[..|bufs|] == bufs;
  }

  lemma WrittenAdd(gs: seq<Gather>, g: Gather, start: nat)
    requires GathersOk(gs) && Contiguous(gs, start) && GatherOk(g) && g.offset == start + |Written(gs)|
    ensures GathersOk(gs + [g]) && Contiguous(gs + [g], start) && Written(gs + [g]) == Written(gs) + DataOf(g)
    ensures Pages(gs + [g]) == Pages(gs) + Concat(g.segments)
  {
    var gs' := gs + [g];
    assert gs'[..|gs|] == gs;
    forall k | 0 <= k < |gs'| ensures gs'[k].offset == start + |Written(gs'[..k])| {
      assert gs'[..k] == gs[..k];
      if k == |gs| { assert gs[..k] == gs; }
    }
  }

  /** A buffer is added to the count, modulo 2^32. */
  function Opened(st: Stage, len: nat): Stage {
    st.(rest := len, bytes := (st.bytes + len) % WORD, wraps := st.wraps + (st.bytes + len) / WORD)
  }

  lemma OpenKeeps(st: Stage, start: nat, len: nat)
    requires Staged(st, start) && st.rest == 0 && len < WORD
    ensures Staged(Opened(st, len), start) && (Full(st) ==> Full(Opened(st, len)))
  {
    assert st.bytes + len == (st.bytes + len) % WORD + WORD * ((st.bytes + len) / WORD);
  }

  function Cut(st: Stage, page: seq<Byte>): Stage
    requires |page| <= st.rest
  {
    st.(taken := st.taken + page, rest := st.rest - |page|, segs := st.segs + [page])
  }

  lemma CutKeeps(st: Stage, start: nat, page: seq<Byte>)
    requires Staged(st, start) && |page| <= st.rest && |page| <= SYSTEM_PAGE
    ensures Staged(Cut(st, page), start) && (Full(st) && |page| == SYSTEM_PAGE ==> Full(Cut(st, page)))
  {
    ConcatAdd(st.segs, page);
  }

  function Flushed(st: Stage, offset: nat, n: nat): Stage
    requires n <= st.bytes
  {
    st.(segs := [], bytes := st.bytes - n, gs := st.gs + [Gather(offset, st.segs, n)])
  }

  /** Issuing the pages collected keeps the account, whether the byte count or the pages run out first. */
  lemma FlushKeeps(st: Stage, start: nat, n: nat)
    requires Staged(st, start) && n <= st.bytes && |st.segs| <= PAGES_PER_WRITE
    requires (Full(st) && |st.segs| == PAGES_PER_WRITE) || st.rest == 0
    requires n == if st.bytes < MAX_WRITE then st.bytes else MAX_WRITE
    ensures var st' := Flushed(st, start + |Written(st.gs)|, n);
            && Staged(st', start) && (Full(st) && |st.segs| == PAGES_PER_WRITE ==> Full(st'))
            && Written(st'.gs) == Written(st.gs) + DataOf(st'.gs[|st.gs|])
  {
    hide Concat, Written, Pages, Contiguous;
    var g := Gather(start + |Written(st.gs)|, st.segs, n);
    assert GatherOk(g);
    WrittenAdd(st.gs, g, start);
    ConcatNone();
    if st.wraps == 0 {
      assert n == |Concat(st.segs)|;
      assert Concat(st.segs)[..n] == Concat(st.segs);
    }
  }

  // ---------------------------------------------------------------- facts about buffers and the disk

  lemma {:induction false} TakenIsPrefix(bufs: seq<Buffer>, i: nat, n: nat)
    requires i < |bufs| && n <= |bufs[i]|
    ensures Concat(bufs[..i]) + bufs[i][..n] <= Concat(bufs)
    decreases |bufs|
  {
    var m := |bufs| - 1;
    if i < m {
      TakenIsPrefix(bufs[..m], i, n);
      assert bufs[..m][..i] == bufs[..i];
    }
  }

  lemma TakeOne(bufs: seq<Buffer>, i: nat)
    requires i < |bufs|
    ensures Concat(bufs[..i + 1]) == Concat(bufs[..i]) + bufs[i]
  {
    assert bufs[..i + 1] == bufs[..i] + [bufs[i]];
    ConcatAdd(bufs[..i], bufs[i]);
  }

  /** The count wraps for the first time at a buffer exactly when the pending bytes and the buffer do not fit. */
  lemma WrapsWhen(bufs: seq<Buffer>, i: nat, st: Stage, start: nat)
    requires i < |bufs| && Staged(st, start) && Full(st) && st.rest == 0 && |st.segs| < PAGES_PER_WRITE
    requires st.taken == Concat(bufs[..i]) && (st.wraps == 0 <==> NoWrap(bufs[..i]))
    ensures Opened(st, |bufs[i]|).wraps == 0 <==> NoWrap(bufs[..i + 1])
  {
    hide Concat, Written, Pages;
    var done, more := bufs[..i], bufs[..i + 1];
    assert forall k :: 0 <= k < i ==> more[..k] == done[..k] && more[k] == done[k];
    assert more[..i] == done && more[i] == bufs[i];
    if st.wraps == 0 {
      assert |Concat(done)| == MAX_WRITE * |st.gs| + st.bytes && st.bytes < MAX_WRITE;
      Remainder(|Concat(done)|, |st.gs|, st.bytes);
    }
    if NoWrap(more) {
      forall k | 0 <= k < i ensures |Concat(done[..k])| % MAX_WRITE + |done[k]| < WORD {
        assert |Concat(more[..k])| % MAX_WRITE + |more[k]| < WORD;
      }
      assert |Concat(more[..i])| % MAX_WRITE + |more[i]| < WORD;
    }
  }

  lemma Remainder(n: nat, q: nat, r: nat)
    requires n == MAX_WRITE * q + r && r < MAX_WRITE
    ensures n % MAX_WRITE == r
  {
  }

  /** Two writes, the second where the first ended, are one write of both. */
  lemma WriteMore(disk: seq<Byte>, offset: nat, a: seq<Byte>, b: seq<Byte>)
    ensures WriteAt(WriteAt(disk, offset, a), offset + |a|, b) == WriteAt(disk, offset, a + b)
  {
    if a == [] {
      assert a + b == b;
    } else if b == [] {
      assert a + b == a;
    } else if offset > |disk| {
      WriteMoreBeyond(disk, offset, a, b);
    } else {
      WriteMoreWithin(disk, offset, a, b);
    }
  }

  lemma WriteMoreBeyond(disk: seq<Byte>, offset: nat, a: seq<Byte>, b: seq<Byte>)
    requires a != [] && b != [] && offset > |disk|
    ensures WriteAt(WriteAt(disk, offset, a), offset + |a|, b) == WriteAt(disk, offset, a + b)
  {
    var start := disk + seq(offset - |disk|, _ => 0);
    assert WriteAt(disk, offset, a) == start + a;
    assert (start + a)[..offset + |a|] == start + a;
    assert start + a + b + [] == start + (a + b);
  }

  lemma WriteMoreWithin(disk: seq<Byte>, offset: nat, a: seq<Byte>, b: seq<Byte>)
    requires a != [] && b != [] && offset <= |disk|
    ensures WriteAt(WriteAt(disk, offset, a), offset + |a|, b) == WriteAt(disk, offset, a + b)
  {
    var once, end := WriteAt(disk, offset, a), offset + |a| + |b|;
    var twice, both := WriteAt(once, offset + |a|, b), WriteAt(disk, offset, a + b);
    assert |once| == if offset + |a| < |disk| then |disk| else offset + |a|;
    assert |twice| == |both| == if end < |disk| then |disk| else end;
    forall k | 0 <= k < |both| ensures twice[k] == both[k] {
      assert both[k] == if k < offset then disk[k] else if k < offset + |a| then a[k - offset] else if k < end
        then b[k - offset - |a|] else disk[k];
      if k < offset + |a| { assert twice[k] == once[k]; }
    }
  }

  /** What was written is there, and nothing before it changed. */
  lemma WrittenIsThere(disk: seq<Byte>, offset: nat, data: seq<Byte>)
    requires data != []
    ensures offset + |data| <= |WriteAt(disk, offset, data)|
    ensures WriteAt(disk, offset, data)[offset..offset + |data|] == data
    ensures offset <= |disk| ==> WriteAt(disk, offset, data)[..offset] == disk[..offset]
  {
    if offset > |disk| {
      assert |disk + seq(offset - |disk|, _ => 0)| == offset;
    }
  }

  /** The number of system pages, the last one perhaps not whole. */
  function PageCount(len: nat): nat { if len % SYSTEM_PAGE == 0 then len / SYSTEM_PAGE else len / SYSTEM_PAGE + 1 }

  lemma CutAt(taken: seq<Byte>, b: seq<Byte>, m: nat, n: nat)
    requires m <= n <= |b|
    ensures taken + b[..m] + b[m..n] == taken + b[..n]
  {
    assert b[..m] + b[m..n] == b[..n];
  }

  /** Page j of a buffer is a whole system page, except perhaps the last one. */
  lemma PageIs(len: nat, j: nat)
    requires j < PageCount(len)
    ensures var n := Min((j + 1) * SYSTEM_PAGE, len);
      && j * SYSTEM_PAGE < n <= len && n - j * SYSTEM_PAGE <= SYSTEM_PAGE
         && Min(j * SYSTEM_PAGE, len) == j * SYSTEM_PAGE
      && (j + 1 < PageCount(len) || len % SYSTEM_PAGE == 0 ==> n == (j + 1) * SYSTEM_PAGE)
      && (j + 1 == PageCount(len) ==> n == len)
  {
  }

  function Min(a: nat, b: nat): nat { if a < b then a else b }

  /** The length rounded up to whole pages, in 32-bit arithmetic. */
  function RoundUpToPage(x: nat): nat { And((x + (PAGE - 1)) % WORD, 0xfffffe00) }

  /** Rounding is right exactly below the last page of the 32-bit range, and wraps to zero there. */
  lemma RoundUpExact(x: nat)
    requires x < WORD
    ensures x <= WORD - PAGE ==> RoundUpToPage(x) % PAGE == 0 && x <= RoundUpToPage(x) < x + PAGE
    ensures x > WORD - PAGE ==> RoundUpToPage(x) == 0
  {
    hide And, Pow2;
    var y := (x + (PAGE - 1)) % WORD;
    PagePowers();
    FieldKept(9, 23, 0x200, 0x80_0000, y % 0x200, y / 0x200, 0, y, 0xfffffe00);
  }

  lemma PagePowers()
    ensures Pow2(9) == 0x200 && Pow2(23) == 0x80_0000 && Pow2(12) == 0x1000 && Pow2(20) == 0x10_0000
  {
  }

  /** Half of a long read, rounded up, is a safe piece that leaves something to read. */
  lemma HalfUp(n: nat)
    requires MAX_SINGLE_IO < n < 2 * MAX_SINGLE_IO
    ensures var h := And(n / 2 + SAFE_ALIGNMENT - 1, 0xfff00000); h % SAFE_ALIGNMENT == 0 && n / 2 <= h <= MAX_SINGLE_IO
  {
    hide And, Pow2;
    var y := n / 2 + SAFE_ALIGNMENT - 1;
    PagePowers();
    FieldKept(20, 12, 0x10_0000, 0x1000, y % 0x10_0000, y / 0x10_0000, 0, y, 0xfff00000);
  }

  lemma RecordAdded(rs: seq<Record>, r: Record)
    ensures Solid(rs + [r]) <==> Solid(rs) && |r.data| > 0
    ensures WholePages(rs + [r]) <==> WholePages(rs) && |r.data| % PAGE == 0
  {
    var more := rs + [r];
    assert more[|rs|] == r && forall k :: 0 <= k < |rs| ==> more[k] == rs[k];
  }

  lemma ImageAdd(rs: seq<Record>, r: Record)
    ensures Image(rs + [r]) == Image(rs) + r.data
  {
    assert (rs + [r])[..|rs|] == rs;
  }

  /** Two buffers the assertions allow, with which the count wraps: each is one system page short of 4 GB. */
  lemma CountCanWrap() returns (bufs: seq<Buffer>)
    ensures Aligned(bufs) && !NoWrap(bufs)
  {
    var b: Buffer := seq(WORD - SYSTEM_PAGE, _ => 0);
    bufs := [b, b];
    assert bufs[..1] == [] + [b];
    ConcatNone();
    ConcatAdd([], b);
    assert |Concat(bufs[..1])| % MAX_WRITE + |bufs[1]| >= WORD;
  }

  /** Buffers of less than 4 GB in all never wrap the count. */
  lemma ShortNoWrap(bufs: seq<Buffer>)
    requires |Concat(bufs)| < WORD
    ensures NoWrap(bufs)
  {
    hide Concat;
    forall i | 0 <= i < |bufs| ensures |Concat(bufs[..i])| % MAX_WRITE + |bufs[i]| < WORD {
      TakenIsPrefix(bufs, i, |bufs[i]|);
      assert bufs[i][..|bufs[i]|] == bufs[i];
    }
  }

  lemma Landed(disk: seq<Byte>, start: nat, data: seq<Byte>)
    requires start <= |disk|
    ensures start + |data| <= |WriteAt(disk, start, data)| && WriteAt(disk, start, data)[start..start + |data|] == data
  {
    if data != [] { WrittenIsThere(disk, start, data); }
  }

  lemma AlignedSpan(a: nat, b: nat)
    requires a % PAGE == 0 && b % PAGE == 0
    ensures (b - a) % PAGE == 0
  {
  }

  lemma Mod32(x: int)
    ensures 0 <= x % WORD < WORD && (x % WORD == x <==> 0 <= x < WORD)
  {
  }

  lemma Indexed(rs: seq<Record>, min: nat, offsets: seq<nat>, d: nat)
    requires IndexOk(rs, min, offsets) && HasVote(rs, d)
    ensures min <= d < min + |offsets|
  {
  }

  /** What AddMessage looks at: whether the message is a vote, its decree and its marshalled length. */
  datatype Message = Message(isVote: bool, decree: nat, len: nat)

  class LogFile {
    var disk: seq<Byte>
    var dataLen: nat
    var minDecree: nat
    var decreeOffsets: seq<nat>
    ghost var records: seq<Record>

    /** The file holds the records, each in whole pages, and the index locates the votes among them. */
    ghost predicate Valid()
      reads this
    {
      && dataLen <= |disk| && disk[..dataLen] == Image(records) && WholePages(records)
      && IndexOk(records, minDecree, decreeOffsets) && (decreeOffsets == [] ==> minDecree == 0)
      && |decreeOffsets| < WORD
    }

    constructor ()
      ensures Valid() && records == [] && dataLen == 0
    {
      disk, dataLen, minDecree, decreeOffsets, records := [], 0, 0, [], [];
    }

    /** One gather; after a failure nothing is known of the disk from its offset on. */
    method IssueWriteFileGather(g: Gather, fails: bool) returns (ok: bool)
      requires GatherOk(g)
      modifies this`disk
      ensures ok == !fails && (ok ==> disk == WriteAt(old(disk), g.offset, DataOf(g)))
      ensures Untouched(old(disk), g.offset, disk)
    {
      ok := !fails;
      if ok {
        Before(disk, g.offset, DataOf(g));
        disk := WriteAt(disk, g.offset, Concat(g.segments)[..g.bytes]);
      } else {
        var anything: seq<Byte> := *;
        disk := (if g.offset <= |disk| then disk[..g.offset] else disk) + anything;
      }
    }

    /** The pages collected so far are issued, and counted as written unless the call fails. */
    method Flush(segments: seq<seq<Byte>>, n: nat, offset: nat, gs0: seq<Gather>, failing: set<nat>,
                 ghost st0: Stage, ghost disk0: seq<Byte>)
      returns (ok: bool, gs: seq<Gather>, ghost st: Stage)
      requires Staged(st0, dataLen) && st0.segs == segments && st0.gs == gs0 && |segments| <= PAGES_PER_WRITE
      requires (Full(st0) && |segments| == PAGES_PER_WRITE) || st0.rest == 0
      requires n == Min(MAX_WRITE, st0.bytes) || (st0.rest == 0 && n == st0.bytes)
      requires GathersOk(gs0) && offset == dataLen + |Written(gs0)| && disk == WriteAt(disk0, dataLen, Written(gs0))
      modifies this`disk
      ensures gs == gs0 + [Gather(offset, segments, n)] && GathersOk(gs) && ok == (|gs0| !in failing)
      ensures st == Flushed(st0, offset, n) && Staged(st, dataLen)
      ensures Full(st0) && |segments| == PAGES_PER_WRITE ==> Full(st)
      ensures ok ==> |Written(gs)| == |Written(gs0)| + n && disk == WriteAt(disk0, dataLen, Written(gs))
      ensures !ok ==> Untouched(disk0, dataLen, disk)
    {
      hide Concat, Written, Pages, Contiguous, WriteAt, Staged, Full, GathersOk, GatherOk, DataOf, Untouched;
      FlushOk(st0, dataLen, n, disk0);
      st := Flushed(st0, offset, n);
      gs := gs0 + [Gather(offset, segments, n)];
      ok := IssueWriteFileGather(Gather(offset, segments, n), |gs0| in failing);
      if !ok { BeforeFailure(disk0, dataLen, Written(gs0), disk); }
    }

    /** The account of a write that has taken buffers before i and n bytes of buffer i: what is collected,
        counted, issued and on the disk.  disk0: the disk before the write. */
    ghost predicate Account(bufs: seq<Buffer>, i: nat, n: nat, segments: seq<seq<Byte>>, bytesToWrite: nat, offset: nat,
                            gs: seq<Gather>, failing: set<nat>, st: Stage, disk0: seq<Byte>)
      reads this
    {
      && i < |bufs| && n <= |bufs[i]|
      && st == Stage(Concat(bufs[..i]) + bufs[i][..n], |bufs[i]| - n, segments, bytesToWrite, gs, st.wraps)
      && Staged(st, dataLen) && |segments| < PAGES_PER_WRITE && (forall k :: 0 <= k < |gs| ==> k !in failing)
      && GathersOk(gs) && offset == dataLen + |Written(gs)| && disk == WriteAt(disk0, dataLen, Written(gs))
    }

    /** Page j of buffer i is collected, and issued with the others when there are 512 of them. */
    method WritePage(bufs: seq<Buffer>, i: nat, j: nat, segments0: seq<seq<Byte>>, bytesToWrite0: nat, offset0: nat,
                     gs0: seq<Gather>, failing: set<nat>, ghost st0: Stage, ghost disk0: seq<Byte>)
      returns (ok: bool, segments: seq<seq<Byte>>, bytesToWrite: nat, offset: nat, gs: seq<Gather>, ghost st: Stage)
      requires i < |bufs| && j < PageCount(|bufs[i]|) && Full(st0) && (NoWrap(bufs[..i + 1]) ==> st0.wraps == 0)
      requires Account(bufs, i, Min(j * SYSTEM_PAGE, |bufs[i]|), segments0, bytesToWrite0, offset0, gs0, failing, st0,
        disk0)
      modifies this`disk
      ensures st.wraps == st0.wraps
      ensures ok ==>
        Account(bufs, i, Min((j + 1) * SYSTEM_PAGE, |bufs[i]|), segments, bytesToWrite, offset, gs, failing, st, disk0)
      ensures ok && (j + 1 < PageCount(|bufs[i]|) || |bufs[i]| % SYSTEM_PAGE == 0) ==> Full(st)
      ensures !ok ==> GathersOk(gs) && Contiguous(gs, dataLen) && (NoWrap(bufs) ==> Written(gs) <= Concat(bufs))
      ensures !ok ==> |gs| > 0 && |gs| - 1 in failing && Untouched(disk0, dataLen, disk)
    {
      hide Concat, Written, Pages, Contiguous, WriteAt, Staged, Full, NoWrap, GathersOk, GatherOk, DataOf, Untouched;
      ok, bytesToWrite, offset, gs := true, bytesToWrite0, offset0, gs0;
      PageIs(|bufs[i]|, j);
      var n := Min((j + 1) * SYSTEM_PAGE, |bufs[i]|);
      var page := bufs[i][j * SYSTEM_PAGE..n];
      CutKeeps(st0, dataLen, page);
      CutAt(Concat(bufs[..i]), bufs[i], j * SYSTEM_PAGE, n);
      st := Cut(st0, page);
      segments := segments0 + [page];
      if |segments| == PAGES_PER_WRITE {
        var toWrite := Min(PAGES_PER_WRITE * SYSTEM_PAGE, bytesToWrite);
        ok, gs, st := Flush(segments, toWrite, offset, gs, failing, st, disk0);
        if !ok {
          EarlyEnd(bufs, i, n, st, dataLen);
          return;
        }
        segments, bytesToWrite, offset := [], bytesToWrite - toWrite, offset + toWrite;
      }
    }

    /** The inner loop of the write: buffer i is cut into pages, and every 512 pages are issued. */
    method WritePages(bufs: seq<Buffer>, i: nat, segments0: seq<seq<Byte>>, bytesToWrite0: nat, offset0: nat,
                      gs0: seq<Gather>, failing: set<nat>, ghost st0: Stage, ghost disk0: seq<Byte>)
      returns (ok: bool, segments: seq<seq<Byte>>, bytesToWrite: nat, offset: nat, gs: seq<Gather>, ghost st: Stage)
      requires i < |bufs| && (i == |bufs| - 1 || |bufs[i]| % SYSTEM_PAGE == 0)
      requires Account(bufs, i, 0, segments0, bytesToWrite0, offset0, gs0, failing, st0, disk0)
      requires Full(st0) && (st0.wraps == 0 <==> NoWrap(bufs[..i + 1]))
      modifies this`disk
      ensures ok ==> Account(bufs, i, |bufs[i]|, segments, bytesToWrite, offset, gs, failing, st, disk0)
      ensures ok ==> st.wraps == st0.wraps && (i < |bufs| - 1 ==> Full(st))
      ensures !ok ==> GathersOk(gs) && Contiguous(gs, dataLen) && (NoWrap(bufs) ==> Written(gs) <= Concat(bufs))
      ensures !ok ==> |gs| > 0 && |gs| - 1 in failing && Untouched(disk0, dataLen, disk)
    {
      hide Account, Concat, Written, Contiguous, Full, NoWrap, GathersOk, Untouched;
      ok, segments, bytesToWrite, offset, gs, st := true, segments0, bytesToWrite0, offset0, gs0, st0;
      var len := |bufs[i]|;
      var j := 0;
      while j < PageCount(len)
        invariant j <= PageCount(len) && st.wraps == st0.wraps
        invariant Account(bufs, i, Min(j * SYSTEM_PAGE, len), segments, bytesToWrite, offset, gs, failing, st, disk0)
        invariant i < |bufs| - 1 || j < PageCount(len) ==> Full(st)
      {
        ok, segments, bytesToWrite, offset, gs, st :=
          WritePage(bufs, i, j, segments, bytesToWrite, offset, gs, failing, st, disk0);
        if !ok { return; }
        j := j + 1;
      }
    }

    /** The buffers go to the disk one after the other from m_dataLen on, exactly when the 32-bit byte
        count never wraps; every call has at most 512 segments and 2 MB and starts where the one before
        it ended.  failing: the calls that fail. */
    method Write(bufs: seq<Buffer>, failing: set<nat>) returns (outcome: Outcome, gs: seq<Gather>)
      modifies this`disk
      ensures GathersOk(gs) && Contiguous(gs, dataLen)
      ensures NoWrap(bufs) ==> Written(gs) <= Concat(bufs)
      ensures outcome == Done ==> Aligned(bufs) && disk == WriteAt(old(disk), dataLen, Written(gs))
      ensures outcome == Done ==> (Written(gs) == Concat(bufs) <==> NoWrap(bufs))
      ensures outcome == Asserted ==> !Aligned(bufs)
      ensures outcome == Failed <==> exists k :: 0 <= k < |gs| && k in failing
      ensures Untouched(old(disk), dataLen, disk)
    {
      hide Concat, Written, Pages, Contiguous, WriteAt, Staged, Full, Aligned, NoWrap, GathersOk, GatherOk, DataOf;
      var segments: seq<seq<Byte>>, bytesToWrite: nat, offset: nat := [], 0, dataLen;
      gs, outcome := [], Done;
      ghost var st := Stage([], 0, [], 0, [], 0);
      StartOk(bufs, dataLen, disk);
      for i := 0 to |bufs|
        invariant st == Stage(Concat(bufs[..i]), 0, segments, bytesToWrite, gs, st.wraps) && Staged(st, dataLen)
        invariant (i < |bufs| ==> Full(st)) && |segments| < PAGES_PER_WRITE
        invariant st.wraps == 0 <==> NoWrap(bufs[..i])
        invariant GathersOk(gs) && offset == dataLen + |Written(gs)| && disk == WriteAt(old(disk), dataLen, Written(gs))
        invariant forall k :: 0 <= k < |gs| ==> k !in failing
        invariant AlignedTo(bufs, i)
      {
        var len := |bufs[i]|;
        var remainingBytes := len % SYSTEM_PAGE;
        EarlyEnd(bufs, i, 0, st, dataLen);
        Before(old(disk), dataLen, Written(gs));
        if len % PAGE != 0 {
          NotAligned(bufs, i);
          return Asserted, gs;
        }
        OpenKeeps(st, dataLen, len);
        WrapsWhen(bufs, i, st, dataLen);
        st := Opened(st, len);
        bytesToWrite := (bytesToWrite + len) % WORD;
        if !(i == |bufs| - 1 || remainingBytes == 0) {
          NotAligned(bufs, i);
          return Asserted, gs;
        }
        assert Concat(bufs[..i]) + bufs[i][..0] == Concat(bufs[..i]) && bufs[i][..len] == bufs[i];
        var ok;
        ok, segments, bytesToWrite, offset, gs, st :=
          WritePages(bufs, i, segments, bytesToWrite, offset, gs, failing, st, old(disk));
        if !ok { return Failed, gs; }
        TakeOne(bufs, i);
      }
      assert bufs[..|bufs|] == bufs;
      AllAligned(bufs);
      if |segments| > 0 {
        var ok;
        ok, gs, st := Flush(segments, bytesToWrite, offset, gs, failing, st, old(disk));
        AllTaken(bufs, st, dataLen);
        if !ok { return Failed, gs; }
      } else {
        AllTaken(bufs, st, dataLen);
      }
      Before(old(disk), dataLen, Written(gs));
    }

    // -------------------------------------------------------------- the decree index

    function MaxDecree(): nat
      reads this
    {
      if decreeOffsets == [] then 0 else minDecree + |decreeOffsets| - 1
    }

    /** The message just written at the end of the file becomes a record.  A vote must be for the last
        decree or the next one, unless it is the first. */
    method AddMessage(msg: Message) returns (ok: bool)
      requires Valid() && msg.len < WORD && dataLen + RoundUpToPage(msg.len) <= |disk| && |decreeOffsets| + 1 < WORD
      modifies this
      ensures Valid() && disk == old(disk)
      ensures ok <==>
        !msg.isVote || old(decreeOffsets) == [] || msg.decree == old(MaxDecree()) || msg.decree == old(MaxDecree()) + 1
      ensures ok ==> dataLen == old(dataLen) + RoundUpToPage(msg.len)
      ensures ok ==>
        records == old(records) + [Record(msg.isVote, msg.decree, old(disk[dataLen..dataLen + RoundUpToPage(msg.len)]))]
      ensures ok ==> (Solid(records) <==> old(Solid(records)) && 1 <= msg.len <= WORD - PAGE)
      ensures !ok ==> dataLen == old(dataLen) && records == old(records) && decreeOffsets == old(decreeOffsets)
    {
      hide IndexOk, RoundUpToPage, Image, Solid, WholePages;
      var messageLen := RoundUpToPage(msg.len);
      RoundUpExact(msg.len);
      ghost var r := Record(msg.isVote, msg.decree, disk[dataLen..dataLen + messageLen]);
      if msg.isVote {
        if decreeOffsets == [] {
          AddVote(records, minDecree, decreeOffsets, r, msg.decree, []);
          minDecree := msg.decree;
        } else {
          if !(msg.decree == MaxDecree() || msg.decree == MaxDecree() + 1) { return false; }
          if MaxDecree() == msg.decree {
            AddVote(records, minDecree, decreeOffsets, r, minDecree, decreeOffsets[..|decreeOffsets| - 1]);
            decreeOffsets := decreeOffsets[..|decreeOffsets| - 1];
          } else {
            AddVote(records, minDecree, decreeOffsets, r, minDecree, decreeOffsets);
          }
        }
        decreeOffsets := decreeOffsets + [dataLen];
      } else {
        AddOther(records, minDecree, decreeOffsets, r);
      }
      ImageAdd(records, r);
      RecordAdded(records, r);
      assert disk[..dataLen + messageLen] == disk[..dataLen] + r.data;
      records := records + [r];
      dataLen := dataLen + messageLen;
      ok := true;
    }

    /** The log has a decree exactly when it has a vote for it, except that a log without votes claims to
        have decree 0. */
    method HasDecree(decree: nat) returns (has: bool)
      requires Valid()
      ensures has <==> HasVote(records, decree) || (decree == 0 && forall d: nat :: !HasVote(records, d))
    {
      has := minDecree <= decree && MaxDecree() >= decree;
      if decreeOffsets != [] { assert HasVote(records, minDecree); }
    }

    /** The offset of the latest vote for a decree; None is a failed assertion. */
    method GetOffset(decree: nat) returns (offset: Option<nat>)
      requires Valid()
      ensures offset.Some? <==> minDecree <= decree <= MaxDecree()
      ensures HasVote(records, decree) ==> offset.Some? && Located(records, decree, offset.value)
      ensures offset.Some? && !HasVote(records, decree) ==> decree == 0 && decreeOffsets == [] && offset.value == 0
      ensures offset.Some? && decreeOffsets != [] ==> offset.value == decreeOffsets[decree - minDecree]
    {
      if !(decree >= minDecree && decree <= MaxDecree()) { return None; }
      var index := (decree - minDecree) % WORD;
      if decreeOffsets == [] { return Some(0); }
      assert Located(records, minDecree + index, decreeOffsets[index]);
      return Some(decreeOffsets[index]);
    }

    /** How far decree d reaches: to the vote of the next one, or to the end of the file. */
    ghost function Span(d: nat): int
      reads this
      requires minDecree <= d < minDecree + |decreeOffsets|
    {
      EndOf(decreeOffsets, dataLen, d - minDecree) - decreeOffsets[d - minDecree]
    }

    /** The span of a decree, which is never negative, modulo 2^32. */
    method GetLengthOfDecree(decree: nat) returns (length: Option<nat>)
      requires Valid()
      ensures length.Some? <==> minDecree <= decree <= MaxDecree()
      ensures HasVote(records, decree) ==>
              && length.Some? && minDecree <= decree < minDecree + |decreeOffsets| && Span(decree) >= 0
              && length.value == Span(decree) % WORD && (length.value == Span(decree) <==> Span(decree) < WORD)
    {
      hide IndexOk, Image, Located, Solid, WholePages, Growing;
      if HasVote(records, decree) { Indexed(records, minDecree, decreeOffsets, decree); }
      OffsetsGrow(records, minDecree, decreeOffsets);
      var from := GetOffset(decree);
      if from.None? { return None; }
      if decree < MaxDecree() {
        var to := GetOffset(decree + 1);
        Mod32(to.value - from.value);
        length := Some((to.value - from.value) % WORD);
      } else {
        Mod32(dataLen - from.value);
        length := Some((dataLen - from.value) % WORD);
      }
    }

    /** The index after any accepted messages: every offset is page aligned, offsets grow strictly if no
        message was empty or too long to be rounded, and the spans of the decrees voted on tile the file
        from the first indexed vote to the end of the data, with no gap and no overlap. */
    lemma IndexTiles()
      requires Valid()
      ensures dataLen % PAGE == 0 && forall k :: 0 <= k < |decreeOffsets| ==> decreeOffsets[k] % PAGE == 0
      ensures Ordered(decreeOffsets, dataLen) && (Solid(records) ==> Growing(decreeOffsets, dataLen))
      ensures forall d: nat :: HasVote(records, d) ==>
        minDecree <= d < minDecree + |decreeOffsets| && Span(d) >= 0 && Span(d) % PAGE == 0
          && (Solid(records) ==> Span(d) > 0)
      ensures decreeOffsets != [] ==> TotalLength(decreeOffsets, dataLen, |decreeOffsets|) == dataLen - decreeOffsets[0]
      ensures forall x: nat :: decreeOffsets != [] && decreeOffsets[0] <= x < dataLen ==> OneDecreeAt(x)
    {
      hide IndexOk, Image, TotalLength, Solid, WholePages, HasVote, OneDecreeAt;
      assert dataLen == |Image(records)|;
      OffsetsAligned(records, minDecree, decreeOffsets);
      OffsetsGrow(records, minDecree, decreeOffsets);
      forall d: nat | HasVote(records, d)
        ensures minDecree <= d < minDecree + |decreeOffsets| && Span(d) >= 0 && Span(d) % PAGE == 0
          && (Solid(records) ==> Span(d) > 0)
      {
        Indexed(records, minDecree, decreeOffsets, d);
        AlignedSpan(decreeOffsets[d - minDecree], EndOf(decreeOffsets, dataLen, d - minDecree));
      }
      if decreeOffsets != [] { LengthsAddUp(decreeOffsets, dataLen, |decreeOffsets|); }
      forall x: nat | decreeOffsets != [] && decreeOffsets[0] <= x < dataLen ensures OneDecreeAt(x) { OneDecree(x); }
    }

    /** Byte x lies in the span of exactly one decree, and that one is voted on. */
    ghost predicate OneDecreeAt(x: nat)
      reads this
    {
      exists d: nat :: InSpan(d, x) && HasVote(records, d) && forall d': nat :: InSpan(d', x) ==> d' == d
    }

    ghost predicate InSpan(d: nat, x: nat)
      reads this
    {
      minDecree <= d < minDecree + |decreeOffsets|
        && decreeOffsets[d - minDecree] <= x < decreeOffsets[d - minDecree] + Span(d)
    }

    lemma OneDecree(x: nat)
      requires Valid() && decreeOffsets != [] && decreeOffsets[0] <= x < dataLen && Ordered(decreeOffsets, dataLen)
      ensures OneDecreeAt(x)
    {
      hide Image, Located, Latest;
      var k := Tiled(decreeOffsets, dataLen, x);
      assert InSpan(minDecree + k, x) && HasVote(records, minDecree + k);
      forall d': nat | InSpan(d', x)
        ensures d' == minDecree + k
      {
        assert Covers(decreeOffsets, dataLen, d' - minDecree, x);
      }
    }

    /** At the offset of a decree the disk holds its latest vote. */
    lemma VoteOnDisk(d: nat, j: nat)
      requires Valid() && Latest(records, d, j)
      ensures minDecree <= d < minDecree + |decreeOffsets|
      ensures var o := decreeOffsets[d - minDecree];
              o + |records[j].data| <= dataLen && disk[o..o + |records[j].data|] == records[j].data
    {
      LatestIsThere(records, minDecree, decreeOffsets, d, j);
      var o := decreeOffsets[d - minDecree];
      assert disk[..dataLen][o..o + |records[j].data|] == disk[o..o + |records[j].data|];
    }

    /** Writing a message and entering it in the index, as the legislator logs votes and prepares: the
        buffers become the next record, or nothing is recorded. */
    method Append(msg: Message, bufs: seq<Buffer>, failing: set<nat>) returns (outcome: Outcome)
      requires Valid() && msg.len <= WORD - PAGE && |Concat(bufs)| == RoundUpToPage(msg.len)
        && |decreeOffsets| + 1 < WORD
      modifies this
      ensures Valid()
      ensures outcome == Done ==> records == old(records) + [Record(msg.isVote, msg.decree, Concat(bufs))]
      ensures outcome != Done ==> records == old(records)
    {
      hide IndexOk, And, Concat, WriteAt, Written, NoWrap, Contiguous, GathersOk;
      var gs;
      RoundUpExact(msg.len);
      ShortNoWrap(bufs);
      outcome, gs := Write(bufs, failing);
      if outcome == Done {
        assert dataLen + |Concat(bufs)| <= |disk| && disk[dataLen..dataLen + |Concat(bufs)|] == Concat(bufs) by {
          Landed(old(disk), dataLen, Concat(bufs));
        }
        var ok := AddMessage(msg);
        if !ok { outcome := Asserted; }
      }
    }

    /** A read comes in pieces of at most 32 MB and gives the bytes on the disk, or fails past its end. */
    method Read(count: nat, start: nat) returns (ok: bool, buf: seq<Byte>, pieces: seq<nat>)
      requires count < WORD
      ensures ok <==> count == 0 || start + count <= |disk|
      ensures ok ==> |buf| == count && (count > 0 ==> buf == disk[start..start + count])
      ensures forall k :: 0 <= k < |pieces| ==> 0 < pieces[k] <= MAX_SINGLE_IO
      ensures forall k :: 0 <= k < |pieces| - 1 ==> pieces[k] % SAFE_ALIGNMENT == 0
    {
      hide And, Pow2;
      var numBytes: nat, offset: nat := count, start;
      buf, pieces := [], [];
      while numBytes != 0
        invariant offset + numBytes == start + count && numBytes <= count
        invariant if offset == start then buf == [] else offset <= |disk| && buf == disk[start..offset]
        invariant forall k :: 0 <= k < |pieces| ==> 0 < pieces[k] <= MAX_SINGLE_IO
        invariant forall k :: 0 <= k < |pieces| - (if numBytes == 0 then 1 else 0) ==> pieces[k] % SAFE_ALIGNMENT == 0
        decreases numBytes
      {
        var toRead := PieceOf(numBytes);
        PieceIs(numBytes);
        pieces := pieces + [toRead];
        if offset + toRead > |disk| { return false, buf, pieces; }
        Joined(disk, start, offset, toRead);
        assert buf == disk[start..offset];
        buf := buf + disk[offset..offset + toRead];
        offset, numBytes := offset + toRead, numBytes - toRead;
      }
      ok := true;
    }
  }

  /** How much to read next: everything, 32 MB, or about half where two large pieces will do. */
  function PieceOf(numBytes: nat): nat {
    if numBytes <= MAX_SINGLE_IO then numBytes
    else if numBytes < 2 * MAX_SINGLE_IO then And(numBytes / 2 + SAFE_ALIGNMENT - 1, 0xfff00000)
    else MAX_SINGLE_IO
  }

  lemma PieceIs(n: nat)
    requires n > 0
    ensures 0 < PieceOf(n) <= MAX_SINGLE_IO && PieceOf(n) <= n && (PieceOf(n) < n ==> PieceOf(n) % SAFE_ALIGNMENT == 0)
  {
    hide And;
    if MAX_SINGLE_IO < n < 2 * MAX_SINGLE_IO { HalfUp(n); }
  }

  lemma Joined(disk: seq<Byte>, start: nat, offset: nat, n: nat)
    requires start <= offset && offset + n <= |disk|
    ensures disk[start..offset] + disk[offset..offset + n] == disk[start..offset + n]
  {
  }

  // ---------------------------------------------------------------- the ends of a write

  ghost predicate Untouched(disk0: seq<Byte>, start: nat, disk: seq<Byte>) {
    start <= |disk0| ==> start <= |disk| && disk[..start] == disk0[..start]
  }

  lemma Before(disk: seq<Byte>, start: nat, data: seq<Byte>)
    ensures Untouched(disk, start, WriteAt(disk, start, data))
  {
  }

  /** A failed call may spoil what lies after the calls before it, but not what lay before the first. */
  lemma BeforeFailure(disk0: seq<Byte>, start: nat, data: seq<Byte>, disk: seq<Byte>)
    requires Untouched(WriteAt(disk0, start, data), start + |data|, disk)
    ensures Untouched(disk0, start, disk)
  {
    if start <= |disk0| {
      var once := WriteAt(disk0, start, data);
      assert once[..start + |data|][..start] == disk0[..start];
      assert disk[..start + |data|][..start] == disk[..start];
    }
  }

  predicate AlignedTo(bufs: seq<Buffer>, i: nat)
    requires i <= |bufs|
  {
    forall k :: 0 <= k < i ==> |bufs[k]| % PAGE == 0 && (k < |bufs| - 1 ==> |bufs[k]| % SYSTEM_PAGE == 0)
  }

  lemma NotAligned(bufs: seq<Buffer>, i: nat)
    requires i < |bufs| && (|bufs[i]| % PAGE != 0 || (i != |bufs| - 1 && |bufs[i]| % SYSTEM_PAGE != 0))
    ensures !Aligned(bufs)
  {
  }

  lemma AllAligned(bufs: seq<Buffer>)
    requires AlignedTo(bufs, |bufs|)
    ensures Aligned(bufs)
  {
  }

  lemma StartOk(bufs: seq<Buffer>, start: nat, disk: seq<Byte>)
    ensures Concat(bufs[..0]) == [] && NoWrap(bufs[..0]) && GathersOk([]) && Written([]) == []
      && WriteAt(disk, start, []) == disk
    ensures var st := Stage([], 0, [], 0, [], 0); Staged(st, start) && Full(st)
  {
  }

  /** Wherever a write stops, what it wrote without wrapping is a beginning of the buffers. */
  lemma EarlyEnd(bufs: seq<Buffer>, i: nat, n: nat, st: Stage, start: nat)
    requires i < |bufs| && n <= |bufs[i]| && Staged(st, start)
    requires st.taken == Concat(bufs[..i]) || st.taken == Concat(bufs[..i]) + bufs[i][..n]
    requires (NoWrap(bufs[..i]) ==> st.wraps == 0) || (NoWrap(bufs[..i + 1]) ==> st.wraps == 0)
    ensures GathersOk(st.gs) && Contiguous(st.gs, start) && (NoWrap(bufs) ==> Written(st.gs) <= Concat(bufs))
  {
    if NoWrap(bufs) {
      NoWrapBefore(bufs, i);
      NoWrapBefore(bufs, i + 1);
      TakenIsPrefix(bufs, i, 0);
      TakenIsPrefix(bufs, i, n);
    }
  }

  lemma NoWrapBefore(bufs: seq<Buffer>, i: nat)
    requires i <= |bufs| && NoWrap(bufs)
    ensures NoWrap(bufs[..i])
  {
    assert forall k :: 0 <= k < i ==> bufs[..i][..k] == bufs[..k];
  }

  /** With every buffer taken, the bytes written are all of them exactly if the count never wrapped. */
  lemma AllTaken(bufs: seq<Buffer>, st: Stage, start: nat)
    requires Staged(st, start) && st.taken == Concat(bufs) && st.rest == 0 && st.segs == []
    requires st.wraps == 0 <==> NoWrap(bufs)
    ensures GathersOk(st.gs) && Contiguous(st.gs, start) && (Written(st.gs) == Concat(bufs) <==> NoWrap(bufs))
  {
    assert Concat(st.segs) == [];
    assert st.bytes == 0;
  }

  lemma FlushOk(st: Stage, start: nat, n: nat, disk: seq<Byte>)
    requires Staged(st, start) && |st.segs| <= PAGES_PER_WRITE && GathersOk(st.gs)
    requires (Full(st) && |st.segs| == PAGES_PER_WRITE) || st.rest == 0
    requires n == Min(MAX_WRITE, st.bytes) || (st.rest == 0 && n == st.bytes)
    ensures var st' := Flushed(st, start + |Written(st.gs)|, n); var g := st'.gs[|st.gs|];
            && Staged(st', start) && (Full(st) && |st.segs| == PAGES_PER_WRITE ==> Full(st'))
            && GatherOk(g) && GathersOk(st'.gs) && |Written(st'.gs)| == |Written(st.gs)| + n
            && WriteAt(WriteAt(disk, start, Written(st.gs)), g.offset, DataOf(g)) ==
               WriteAt(disk, start, Written(st'.gs))
  {
    hide Concat, Written, Pages, Contiguous, WriteAt;
    FlushKeeps(st, start, n);
    var st' := Flushed(st, start + |Written(st.gs)|, n);
    assert GatherOk(st'.gs[|st.gs|]);
    WriteMore(disk, start, Written(st.gs), DataOf(st'.gs[|st.gs|]));
  }
}