/** The decision populateDeduplicatedContigs takes for each unmasked contig
    once the PSL file is tallied: keep it whole, discard it, or lowercase the
    duplicated ranges and cut the contig again at the runs that remain. */
module Reconcile {
  import opened PyStr
  import opened UnmaskedSeq
  import opened Contigs
  import opened Dedup

  // ------------------------------------------------------------- masking

  /** One masking step, `M[:a] + M[a:b].lower() + M[b:]`, with Python's slices. */
  function MaskOnce(m: string, g: Range): string
  {
    Slice(m, 0, g.start) + Lower(Slice(m, g.start, g.end)) + Slice(m, g.end, |m|)
  }

  /** Masking every range, taking them from the end of the list as pop() does. */
  function MaskFromEnd(m: string, ranges: seq<Range>): string
    decreases |ranges|
  {
    if ranges == [] then m
    else MaskFromEnd(MaskOnce(m, ranges[|ranges| - 1]), ranges[..|ranges| - 1])
  }

  /** The while loop that pops the match positions and masks each. */
  method MaskRanges(sequence: string, matchPositions: seq<Range>) returns (masked: string)
    ensures masked == MaskFromEnd(sequence, matchPositions)
  {
    masked := sequence;
    var positions := matchPositions;
    while |positions| > 0
      invariant MaskFromEnd(masked, positions) == MaskFromEnd(sequence, matchPositions)
      decreases |positions|
    {
      var duplicate := positions[|positions| - 1];
      positions := positions[..|positions| - 1];
      masked := MaskOnce(masked, duplicate);
    }
  }

  predicate InBounds(g: Range, n: nat)
  {
    0 <= g.start <= g.end <= n
  }

  /** Position k lies in one of the ranges. */
  predicate Covered(ranges: seq<Range>, k: int)
  {
    exists j :: 0 <= j < |ranges| && ranges[j].start <= k < ranges[j].end
  }

  /** An in-bounds step keeps the length and lowercases exactly [a, b). */
  lemma MaskOncePointwise(m: string, g: Range)
    requires InBounds(g, |m|)
    ensures |MaskOnce(m, g)| == |m|
    ensures forall k :: 0 <= k < |m| ==>
      MaskOnce(m, g)[k] == if g.start <= k < g.end then LowerChar(m[k]) else m[k]
  {
    var r := MaskOnce(m, g);
    assert r == m[..g.start] + Lower(m[g.start..g.end]) + m[g.end..];
  }

  lemma LowerCharTwice(c: char)
    ensures LowerChar(LowerChar(c)) == LowerChar(c)
  {
  }

  /** With every range in bounds, masking keeps the length and lowercases
      exactly the covered positions, whatever the order of the ranges. */
  lemma {:induction false} MaskFromEndPointwise(m: string, ranges: seq<Range>)
    requires forall j :: 0 <= j < |ranges| ==> InBounds(ranges[j], |m|)
    ensures |MaskFromEnd(m, ranges)| == |m|
    ensures forall k :: 0 <= k < |m| ==>
      MaskFromEnd(m, ranges)[k] == if Covered(ranges, k) then LowerChar(m[k]) else m[k]
    decreases |ranges|
  {
    if ranges != [] {
      var last := ranges[|ranges| - 1];
      var front := ranges[..|ranges| - 1];
      var once := MaskOnce(m, last);
      MaskOncePointwise(m, last);
      MaskFromEndPointwise(once, front);
      forall k | 0 <= k < |m|
        ensures MaskFromEnd(m, ranges)[k] == if Covered(ranges, k) then LowerChar(m[k]) else m[k]
      {
        LowerCharTwice(m[k]);
        CoveredLast(ranges, k);
      }
    }
  }

  /** A position is covered by a list of ranges iff the last range or one of
      the others covers it. */
  lemma CoveredLast(ranges: seq<Range>, k: int)
    requires ranges != []
    ensures Covered(ranges, k) <==>
      Covered(ranges[..|ranges| - 1], k) || ranges[|ranges| - 1].start <= k < ranges[|ranges| - 1].end
  {
    var front := ranges[..|ranges| - 1];
    if Covered(ranges, k) {
      var j :| 0 <= j < |ranges| && ranges[j].start <= k < ranges[j].end;
      if j < |front| {
        assert front[j] == ranges[j];
      }
    }
    if Covered(front, k) {
      var j :| 0 <= j < |front| && front[j].start <= k < front[j].end;
      assert ranges[j] == front[j];
    }
  }

  /** Masking does not depend on the order of the ranges, nor on repeats. */
  lemma MaskOrderIrrelevant(m: string, r1: seq<Range>, r2: seq<Range>)
    requires forall j :: 0 <= j < |r1| ==> InBounds(r1[j], |m|)
    requires forall j :: 0 <= j < |r2| ==> InBounds(r2[j], |m|)
    requires forall g :: g in r1 <==> g in r2
    ensures MaskFromEnd(m, r1) == MaskFromEnd(m, r2)
  {
    MaskFromEndPointwise(m, r1);
    MaskFromEndPointwise(m, r2);
    forall k | 0 <= k < |m| ensures Covered(r1, k) <==> Covered(r2, k) {
      if Covered(r1, k) {
        var j :| 0 <= j < |r1| && r1[j].start <= k < r1[j].end;
        assert r1[j] in r2;
        var i :| 0 <= i < |r2| && r2[i] == r1[j];
      }
      if Covered(r2, k) {
        var j :| 0 <= j < |r2| && r2[j].start <= k < r2[j].end;
        assert r2[j] in r1;
        var i :| 0 <= i < |r1| && r1[i] == r2[j];
      }
    }
  }

  /** A reversed range is not masked but duplicates text: M[:3] + M[1:]. */
  lemma ReversedRangeExample()
    ensures MaskOnce("ACGT", Range(3, 1)) == "ACGCGT"
  {
    assert Slice("ACGT", 0, 3) == "ACG";
    assert Slice("ACGT", 3, 1) == "";
    assert Slice("ACGT", 1, 4) == "CGT";
  }

  // ------------------------------------------------------------ decision

  datatype Decision =
    | KeepWhole   // the contig found only the expected copies of itself
    | Discard     // more large copies than expected
    | Resegment   // parts of it are duplicated

  function Decide(m: Matches, expdup: int): Decision
  {
    if m.large == expdup && |m.ranges| == 0 then KeepWhole
    else if m.large > expdup then Discard
    else Resegment
  }

  /** The DeduplicatedContigs rows that one unmasked contig row gives. */
  function DedupRowsFor(row: SeqRow, m: Matches, minsize: int, expdup: int): seq<SeqRow>
  {
    match Decide(m, expdup)
    case KeepWhole => [row]
    case Discard => []
    case Resegment =>
      ContigRows(row, Segments(MaskFromEnd(row.sequence, m.ranges), minsize))
  }

  /** The three outcomes: exactly one copy of the row when expdup large
      copies and no partial ones were found, nothing when more large copies
      were found, and otherwise the contig cut again at the runs of the
      masked sequence. */
  lemma DecisionCases(row: SeqRow, m: Matches, minsize: int, expdup: int)
    ensures m.large == expdup && m.ranges == [] ==> DedupRowsFor(row, m, minsize, expdup) == [row]
    ensures m.large > expdup ==> DedupRowsFor(row, m, minsize, expdup) == []
    ensures !(m.large == expdup && m.ranges == []) && m.large <= expdup ==>
      DedupRowsFor(row, m, minsize, expdup)
        == ContigRows(row, Segments(MaskFromEnd(row.sequence, m.ranges), minsize))
  {
  }

  /** A resegmented row holds the original sequence between the ends of a run
      of the masked one.  With in-bounds ranges that is the masked text
      itself: it holds no lowercase character, and each of its positions that
      a duplicated range covers holds an uncased character. */
  lemma ResegmentedRowShape(row: SeqRow, m: Matches, minsize: int, expdup: int, k: nat)
    requires Decide(m, expdup) == Resegment
    requires forall j :: 0 <= j < |m.ranges| ==> InBounds(m.ranges[j], |row.sequence|)
    requires k < |DedupRowsFor(row, m, minsize, expdup)|
    ensures var r := DedupRowsFor(row, m, minsize, expdup)[k];
      var masked := MaskFromEnd(row.sequence, m.ranges);
      var g := Segments(masked, minsize)[k];
      |masked| == |row.sequence| && g.start < g.end < |row.sequence|
      && r.sequence == row.sequence[g.start..g.end] == masked[g.start..g.end]
      && r.start == row.start + g.start && r.end == row.start + g.end
      && r.end - r.start == |r.sequence| >= minsize
      && (forall p :: 0 <= p < |r.sequence| ==> !IsLower(r.sequence[p]))
      && (forall p :: g.start <= p < g.end && Covered(m.ranges, p) ==>
            !IsUpper(row.sequence[p]) && !IsLower(row.sequence[p]))
  {
    var masked := MaskFromEnd(row.sequence, m.ranges);
    MaskFromEndPointwise(row.sequence, m.ranges);
    SegmentsContents(masked, minsize, k);
    var g := Segments(masked, minsize)[k];
    RunOfMasked(row.sequence, masked, m.ranges, g.start, g.end);
    var r := DedupRowsFor(row, m, minsize, expdup)[k];
    assert r.sequence == row.sequence[g.start..g.end];
  }

  /** A stretch of the masked text without lowercase characters is the same
      stretch of the original text, and no cased character of it was masked. */
  lemma RunOfMasked(s: string, masked: string, ranges: seq<Range>, a: nat, b: nat)
    requires a <= b <= |s| == |masked|
    requires forall p :: 0 <= p < |s| ==>
      masked[p] == if Covered(ranges, p) then LowerChar(s[p]) else s[p]
    requires forall p :: a <= p < b ==> !IsLower(masked[p])
    ensures s[a..b] == masked[a..b]
    ensures forall p :: 0 <= p < b - a ==> !IsLower(s[a..b][p])
    ensures forall p :: a <= p < b && Covered(ranges, p) ==> !IsUpper(s[p]) && !IsLower(s[p])
  {
    forall p | a <= p < b ensures s[p] == masked[p] {
      assert !IsLower(masked[p]);
    }
    assert s[a..b] == masked[a..b];
  }

  /** Resegmenting drops the run after the last masked range like any other
      trailing run: a contig row without lowercase characters, partly
      duplicated but with no range to mask, gives no row. */
  lemma ResegmentWithoutRanges(row: SeqRow, m: Matches, minsize: int, expdup: int)
    requires Decide(m, expdup) == Resegment && m.ranges == []
    requires forall p :: 0 <= p < |row.sequence| ==> !IsLower(row.sequence[p])
    ensures DedupRowsFor(row, m, minsize, expdup) == []
  {
    NoLowercaseNoSegments(row.sequence, minsize);
  }
}
