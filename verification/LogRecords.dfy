/** What the decree index of a log file is about: the records in the file, in order. */
module LogRecords {
  type Byte = bv8

  const PAGE: nat := 512

  /** A record on the disk, padded to whole pages.  Only votes are indexed. */
  datatype Record = Record(isVote: bool, decree: nat, data: seq<Byte>)

  function Image(rs: seq<Record>): seq<Byte> {
    if rs == [] then [] else Image(rs[..|rs| - 1]) + rs[|rs| - 1].data
  }

  /** The offset at which record j starts, or for j == |rs| where the next one will. */
  function Start(rs: seq<Record>, j: nat): nat
    requires j <= |rs|
  {
    |Image(rs[..j])|
  }

  predicate IsVoteFor(r: Record, d: nat) { r.isVote && r.decree == d }

  ghost predicate HasVote(rs: seq<Record>, d: nat) { exists j :: 0 <= j < |rs| && IsVoteFor(rs[j], d) }

  /** Record j is the latest vote for decree d. */
  ghost predicate Latest(rs: seq<Record>, d: nat, j: nat) {
    j < |rs| && IsVoteFor(rs[j], d) && forall i :: j < i < |rs| ==> !IsVoteFor(rs[i], d)
  }

  /** The index is right: it holds, for each decree voted on and for no other, the start of its latest
      vote, and later decrees have later votes. */
  ghost predicate IndexOk(rs: seq<Record>, min: nat, offsets: seq<nat>) {
    && (forall d: nat :: HasVote(rs, d) <==> min <= d < min + |offsets|)
    && (forall k :: 0 <= k < |offsets| ==> Located(rs, min + k, offsets[k]))
    && (forall d: nat, d': nat, j: nat, j': nat :: d < d' && Latest(rs, d, j) && Latest(rs, d', j') ==> j < j')
  }

  ghost predicate Located(rs: seq<Record>, d: nat, offset: nat) {
    exists j :: Latest(rs, d, j) && offset == Start(rs, j)
  }

  // ---------------------------------------------------------------- adding a record

  lemma StartStable(rs: seq<Record>, r: Record, j: nat)
    requires j <= |rs|
    ensures Start(rs + [r], j) == Start(rs, j)
  {
    assert (rs + [r])[..j] == rs[..j];
  }

  lemma HasVoteStable(rs: seq<Record>, r: Record, d: nat)
    ensures HasVote(rs + [r], d) <==> HasVote(rs, d) || IsVoteFor(r, d)
  {
    var rs' := rs + [r];
    if HasVote(rs, d) {
      var j :| 0 <= j < |rs| && IsVoteFor(rs[j], d);
      assert IsVoteFor(rs'[j], d);
    }
    if IsVoteFor(r, d) { assert IsVoteFor(rs'[|rs|], d); }
    if HasVote(rs', d) {
      var j :| 0 <= j < |rs'| && IsVoteFor(rs'[j], d);
      if j < |rs| { assert IsVoteFor(rs[j], d); }
    }
  }

  lemma LatestStable(rs: seq<Record>, r: Record, d: nat, j: nat)
    ensures !IsVoteFor(r, d) ==> (Latest(rs + [r], d, j) <==> Latest(rs, d, j))
    ensures IsVoteFor(r, d) ==> (Latest(rs + [r], d, j) <==> j == |rs|)
  {
    var rs' := rs + [r];
    assert rs'[|rs|] == r;
    if Latest(rs, d, j) && !IsVoteFor(r, d) {
      assert forall i :: j < i < |rs'| ==> i < |rs| || rs'[i] == r;
    }
    if Latest(rs', d, j) && j < |rs| {
      assert forall i :: j < i < |rs| ==> rs'[i] == rs[i];
    }
  }

  lemma LocatedStable(rs: seq<Record>, r: Record, d: nat, offset: nat)
    requires !IsVoteFor(r, d) && Located(rs, d, offset)
    ensures Located(rs + [r], d, offset)
  {
    var j :| Latest(rs, d, j) && offset == Start(rs, j);
    LatestStable(rs, r, d, j);
    StartStable(rs, r, j);
  }

  lemma LocatedNew(rs: seq<Record>, r: Record, d: nat)
    requires IsVoteFor(r, d)
    ensures Located(rs + [r], d, |Image(rs)|)
  {
    LatestStable(rs, r, d, |rs|);
    StartStable(rs, r, |rs|);
    assert rs[..|rs|] == rs;
  }

  /** A record that is no vote leaves the index as it is. */
  lemma AddOther(rs: seq<Record>, min: nat, offsets: seq<nat>, r: Record)
    requires IndexOk(rs, min, offsets) && !r.isVote
    ensures IndexOk(rs + [r], min, offsets)
  {
    var rs' := rs + [r];
    forall d: nat ensures HasVote(rs', d) <==> min <= d < min + |offsets| { HasVoteStable(rs, r, d); }
    forall k | 0 <= k < |offsets|
      ensures Located(rs', min + k, offsets[k])
    {
      LocatedStable(rs, r, min + k, offsets[k]);
    }
    forall d: nat, d': nat, j: nat, j': nat | d < d' && Latest(rs', d, j) && Latest(rs', d', j') ensures j < j' {
      LatestStable(rs, r, d, j);
      LatestStable(rs, r, d', j');
    }
  }

  /** A vote for the last decree or the next one, or the very first vote: the entries before it stay, and
      the last entry is the end of the file as it was. */
  lemma AddVote(rs: seq<Record>, min: nat, offsets: seq<nat>, r: Record, min': nat, kept: seq<nat>)
    requires IndexOk(rs, min, offsets) && r.isVote
    requires kept <= offsets && |offsets| <= |kept| + 1 && r.decree == min' + |kept| && (offsets != [] ==> min' == min)
    ensures IndexOk(rs + [r], min', kept + [|Image(rs)|])
  {
    var rs', offsets' := rs + [r], kept + [|Image(rs)|];
    forall d: nat ensures HasVote(rs', d) <==> min' <= d < min' + |offsets'| { HasVoteStable(rs, r, d); }
    forall k | 0 <= k < |offsets'| ensures Located(rs', min' + k, offsets'[k]) {
      if k < |kept| { LocatedStable(rs, r, min' + k, offsets'[k]); } else { LocatedNew(rs, r, min' + k); }
    }
    forall d: nat, d': nat, j: nat, j': nat | d < d' && Latest(rs', d, j) && Latest(rs', d', j') ensures j < j' {
      LatestStable(rs, r, d, j);
      LatestStable(rs, r, d', j');
      assert HasVote(rs', d');
    }
  }

  // ---------------------------------------------------------------- what a right index gives

  lemma {:induction false} ImagePrefix(rs: seq<Record>, j: nat)
    requires j <= |rs|
    ensures Image(rs[..j]) <= Image(rs)
    decreases |rs|
  {
    var m := |rs| - 1;
    if j <= m {
      ImagePrefix(rs[..m], j);
      assert rs[..m][..j] == rs[..j];
    } else {
      assert rs[..j] == rs;
    }
  }

  lemma StartsAt(rs: seq<Record>, j: nat)
    requires j < |rs|
    ensures Start(rs, j) + |rs[j].data| == Start(rs, j + 1) <= |Image(rs)|
    ensures Image(rs)[Start(rs, j)..Start(rs, j) + |rs[j].data|] == rs[j].data
  {
    ImagePrefix(rs, j + 1);
    assert rs[..j + 1][..j] == rs[..j];
    assert Image(rs[..j + 1]) == Image(rs[..j]) + rs[j].data;
    assert Image(rs)[..Start(rs, j + 1)] == Image(rs[..j + 1]);
  }

  lemma {:induction false} StartGrows(rs: seq<Record>, i: nat, j: nat)
    requires i < j <= |rs| && Solid(rs)
    ensures Start(rs, i) < Start(rs, j)
    decreases j
  {
    StartsAt(rs, j - 1);
    if i < j - 1 { StartGrows(rs, i, j - 1); }
  }

  lemma {:induction false} StartOrdered(rs: seq<Record>, i: nat, j: nat)
    requires i <= j <= |rs|
    ensures Start(rs, i) <= Start(rs, j)
    decreases j
  {
    if i < j {
      StartsAt(rs, j - 1);
      StartOrdered(rs, i, j - 1);
    }
  }

  predicate Ordered(offsets: seq<nat>, dataLen: nat) {
    (forall k :: 0 <= k < |offsets| - 1 ==> offsets[k] <= offsets[k + 1]) && forall k ::
      0 <= k < |offsets| ==> offsets[k] <= dataLen
  }

  predicate Growing(offsets: seq<nat>, dataLen: nat) {
    (forall k :: 0 <= k < |offsets| - 1 ==> offsets[k] < offsets[k + 1]) && forall k ::
      0 <= k < |offsets| ==> offsets[k] < dataLen
  }

  predicate Solid(rs: seq<Record>) {
    forall k :: 0 <= k < |rs| ==> |rs[k].data| > 0
  }

  predicate WholePages(rs: seq<Record>) {
    forall k :: 0 <= k < |rs| ==> |rs[k].data| % PAGE == 0
  }

  /** Offsets never fall and stay inside the file, and they grow strictly if no record is empty. */
  lemma OffsetsGrow(rs: seq<Record>, min: nat, offsets: seq<nat>)
    ensures IndexOk(rs, min, offsets) ==> Ordered(offsets, |Image(rs)|) && (Solid(rs) ==> Growing(offsets, |Image(rs)|))
  {
    if IndexOk(rs, min, offsets) {
      forall k | 0 <= k < |offsets|
        ensures offsets[k] <= |Image(rs)| && (Solid(rs) ==> offsets[k] < |Image(rs)|)
        ensures k < |offsets| - 1 ==> offsets[k] <= offsets[k + 1] && (Solid(rs) ==> offsets[k] < offsets[k + 1])
      {
        assert Located(rs, min + k, offsets[k]);
        var j :| Latest(rs, min + k, j) && offsets[k] == Start(rs, j);
        assert rs[..|rs|] == rs;
        StartOrdered(rs, j, |rs|);
        if Solid(rs) { StartGrows(rs, j, |rs|); }
        if k < |offsets| - 1 {
          assert Located(rs, min + (k + 1), offsets[k + 1]);
          var j' :| Latest(rs, min + (k + 1), j') && offsets[k + 1] == Start(rs, j');
          StartOrdered(rs, j, j');
          if Solid(rs) { StartGrows(rs, j, j'); }
        }
      }
    }
  }

  lemma {:induction false} StartAligned(rs: seq<Record>, j: nat)
    requires j <= |rs| && WholePages(rs)
    ensures Start(rs, j) % PAGE == 0
    decreases j
  {
    hide Start, Image;
    if j == 0 {
      StartZero(rs);
    } else {
      StartsAt(rs, j - 1);
      StartAligned(rs, j - 1);
    }
  }

  lemma StartZero(rs: seq<Record>)
    ensures Start(rs, 0) == 0
  {
  }

  /** If every record is whole pages, every offset is page aligned. */
  lemma OffsetsAligned(rs: seq<Record>, min: nat, offsets: seq<nat>)
    requires WholePages(rs)
    ensures |Image(rs)| % PAGE == 0
    ensures IndexOk(rs, min, offsets) ==> forall k :: 0 <= k < |offsets| ==> offsets[k] % PAGE == 0
  {
    StartAligned(rs, |rs|);
    assert rs[..|rs|] == rs;
    if IndexOk(rs, min, offsets) {
      forall k | 0 <= k < |offsets| ensures offsets[k] % PAGE == 0 {
        assert Located(rs, min + k, offsets[k]);
        var j :| Latest(rs, min + k, j) && offsets[k] == Start(rs, j);
        StartAligned(rs, j);
      }
    }
  }

  /** At the offset of a decree stands its latest vote. */
  lemma LatestIsThere(rs: seq<Record>, min: nat, offsets: seq<nat>, d: nat, j: nat)
    requires IndexOk(rs, min, offsets) && Latest(rs, d, j)
    ensures min <= d < min + |offsets|
    ensures var o := offsets[d - min]; o + |rs[j].data| <= |Image(rs)| && Image(rs)[o..o + |rs[j].data|] == rs[j].data
  {
    assert HasVote(rs, d);
    assert Located(rs, min + (d - min), offsets[d - min]);
    StartsAt(rs, j);
  }

  // ---------------------------------------------------------------- tiling

  /** Where the records of the k-th decree end. */
  function EndOf(offsets: seq<nat>, dataLen: nat, k: nat): nat
    requires k < |offsets|
  {
    if k + 1 < |offsets| then offsets[k + 1] else dataLen
  }

  predicate Covers(offsets: seq<nat>, dataLen: nat, k: nat, x: nat) {
    k < |offsets| && offsets[k] <= x < EndOf(offsets, dataLen, k)
  }

  /** Every byte from the first indexed vote to the end of the file belongs to exactly one decree. */
  lemma Tiled(offsets: seq<nat>, dataLen: nat, x: nat) returns (k: nat)
    requires offsets != [] && offsets[0] <= x < dataLen && Ordered(offsets, dataLen)
    ensures Covers(offsets, dataLen, k, x) && forall k': nat :: Covers(offsets, dataLen, k', x) ==> k' == k
  {
    k := |offsets| - 1;
    while offsets[k] > x
      invariant 0 <= k < |offsets| && x < EndOf(offsets, dataLen, k)
      decreases k
    {
      k := k - 1;
    }
    forall k': nat | Covers(offsets, dataLen, k', x) ensures k' == k {
      if k' < k { Increasing(offsets, dataLen, k' + 1, k); }
      if k < k' { Increasing(offsets, dataLen, k + 1, k'); }
    }
  }

  lemma {:induction false} Increasing(offsets: seq<nat>, dataLen: nat, a: nat, b: nat)
    requires a <= b < |offsets| && Ordered(offsets, dataLen)
    ensures offsets[a] <= offsets[b]
    decreases b
  {
    if a < b { Increasing(offsets, dataLen, a, b - 1); }
  }

  /** The lengths of the first n decrees, added up. */
  function TotalLength(offsets: seq<nat>, dataLen: nat, n: nat): int
    requires n <= |offsets|
  {
    if n == 0 then 0 else TotalLength(offsets, dataLen, n - 1) + EndOf(offsets, dataLen, n - 1) - offsets[n - 1]
  }

  lemma {:induction false} LengthsAddUp(offsets: seq<nat>, dataLen: nat, n: nat)
    requires 0 < n <= |offsets|
    ensures TotalLength(offsets, dataLen, n) == EndOf(offsets, dataLen, n - 1) - offsets[0]
  {
    if n > 1 { LengthsAddUp(offsets, dataLen, n - 1); }
  }
}
