/** The resume metadata kept next to the partial file. */
module Manifests {
  import opened Types

  /** An opaque validator: an entity tag or a modification date. */
  type Validator = nat

  datatype ByteRange = ByteRange(start: nat, end: nat) {
    predicate Holds(x: nat) {
      start <= x < end
    }
  }

  /** The index of the first range that continues a prefix of length `offset`, if any. */
  function Find(ranges: seq<ByteRange>, offset: nat): (k: Option<nat>)
    ensures k.Some? ==> k.value < |ranges| && ranges[k.value].start == offset && ranges[k.value].end > offset
    ensures k.None? ==> forall i :: 0 <= i < |ranges| ==> !(ranges[i].start == offset && ranges[i].end > offset)
  {
    if ranges == [] then None
    else if ranges[0].start == offset && ranges[0].end > offset then Some(0)
    else
      match Find(ranges[1..], offset)
      case None => None
      case Some(k) => Some(k + 1)
  }

  function MaxEnd(ranges: seq<ByteRange>): (m: nat)
    ensures forall i :: 0 <= i < |ranges| ==> ranges[i].end <= m
  {
    if ranges == [] then 0
    else
      var rest := MaxEnd(ranges[1..]);
      if ranges[0].end > rest then ranges[0].end else rest
  }

  /** Follows the chain of ranges from `offset` as far as it goes. */
  function Extend(ranges: seq<ByteRange>, offset: nat): nat
    decreases MaxEnd(ranges) - offset
  {
    match Find(ranges, offset)
    case None => offset
    case Some(k) => Extend(ranges, ranges[k].end)
  }

  datatype Manifest = Manifest(
    url: Url,
    etag: Option<Validator>,
    lastModified: Option<Validator>,
    total: Option<nat>,
    ranges: seq<ByteRange>)
  {
    function ResumeOffset(): nat {
      Extend(ranges, 0)
    }

    function SetContiguous(written: nat): Manifest {
      this.(ranges := if written > 0 then [ByteRange(0, written)] else [])
    }

    function Validator(): Option<Validator> {
      if etag.Some? then etag else lastModified
    }

    predicate IsResumableFor(url: Url) {
      this.url == url && ResumeOffset() > 0 && Validator().Some?
    }
  }

  /** The loop that finds the end of the contiguous prefix. */
  method ComputeResumeOffset(ranges: seq<ByteRange>) returns (offset: nat)
    ensures offset == Extend(ranges, 0)
  {
    offset := 0;
    while Find(ranges, offset).Some?
      invariant Extend(ranges, offset) == Extend(ranges, 0)
      decreases MaxEnd(ranges) - offset
    {
      offset := ranges[Find(ranges, offset).value].end;
    }
  }

  // ----- what the offset means

  ghost predicate Covered(ranges: seq<ByteRange>, x: nat) {
    exists i :: 0 <= i < |ranges| && ranges[i].Holds(x)
  }

  ghost predicate CoveredUpTo(ranges: seq<ByteRange>, n: nat) {
    forall x: nat :: x < n ==> Covered(ranges, x)
  }

  ghost predicate DisjointRanges(ranges: seq<ByteRange>) {
    && (forall i :: 0 <= i < |ranges| ==> ranges[i].start < ranges[i].end)
    && (forall i, j :: 0 <= i < j < |ranges| ==> ranges[i].end <= ranges[j].start || ranges[j].end <= ranges[i].start)
  }

  /** For any list of ranges, everything below the offset has been written. */
  lemma {:induction false} PrefixCovered(ranges: seq<ByteRange>, offset: nat)
    requires CoveredUpTo(ranges, offset)
    ensures CoveredUpTo(ranges, Extend(ranges, offset))
    ensures offset <= Extend(ranges, offset)
    decreases MaxEnd(ranges) - offset
  {
    match Find(ranges, offset)
    case None =>
    case Some(k) =>
      var end := ranges[k].end;
      forall x: nat | x < end
        ensures Covered(ranges, x)
      {
        if x >= offset {
          assert ranges[k].Holds(x);
        }
      }
      PrefixCovered(ranges, end);
  }

  /** For disjoint ranges the byte at the offset itself has not been written. */
  lemma {:induction false} OffsetUncovered(ranges: seq<ByteRange>, offset: nat)
    requires DisjointRanges(ranges)
    requires offset == 0 || exists i :: 0 <= i < |ranges| && ranges[i].end == offset
    ensures !Covered(ranges, Extend(ranges, offset))
    decreases MaxEnd(ranges) - offset
  {
    match Find(ranges, offset)
    case Some(k) => OffsetUncovered(ranges, ranges[k].end);
    case None =>
      forall j | 0 <= j < |ranges|
        ensures !ranges[j].Holds(offset)
      {
      }
  }

  /**
   * For pairwise disjoint non-empty ranges, in whatever order, the offset is the largest
   * number below which everything has been written.
   */
  lemma OffsetIsLargestPrefix(ranges: seq<ByteRange>, n: nat)
    requires DisjointRanges(ranges)
    ensures CoveredUpTo(ranges, n) <==> n <= Extend(ranges, 0)
  {
    PrefixCovered(ranges, 0);
    OffsetUncovered(ranges, 0);
  }

  /** So it does not depend on the order in which the ranges are listed. */
  lemma OffsetIgnoresOrder(a: seq<ByteRange>, b: seq<ByteRange>)
    requires multiset(a) == multiset(b) && DisjointRanges(a) && DisjointRanges(b)
    ensures Extend(a, 0) == Extend(b, 0)
  {
    forall x: nat
      ensures Covered(a, x) <==> Covered(b, x)
    {
      if Covered(a, x) {
        SameMembers(a, b, x);
      }
      if Covered(b, x) {
        SameMembers(b, a, x);
      }
    }
    OffsetIsLargestPrefix(a, Extend(b, 0));
    OffsetIsLargestPrefix(b, Extend(a, 0));
    OffsetIsLargestPrefix(a, Extend(a, 0));
    OffsetIsLargestPrefix(b, Extend(b, 0));
  }

  lemma SameMembers(a: seq<ByteRange>, b: seq<ByteRange>, x: nat)
    requires multiset(a) == multiset(b) && Covered(a, x)
    ensures Covered(b, x)
  {
    var i :| 0 <= i < |a| && a[i].Holds(x);
    assert a[i] in multiset(a);
    assert a[i] in b;
    var j :| 0 <= j < |b| && b[j] == a[i];
    assert b[j].Holds(x);
  }

  /** Recording a contiguous prefix records exactly that prefix and keeps the validators. */
  lemma ContiguousOffset(m: Manifest, written: nat)
    ensures m.SetContiguous(written).ResumeOffset() == written
    ensures m.SetContiguous(written).Validator() == m.Validator()
    ensures m.SetContiguous(written).url == m.url
  {
    var rs := m.SetContiguous(written).ranges;
    if written > 0 {
      assert Find(rs, 0) == Some(0);
      assert Extend(rs, written) == written;
      assert Extend(rs, 0) == Extend(rs, rs[0].end);
    }
  }
}
