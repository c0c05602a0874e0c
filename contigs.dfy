/** The rows of the flanking, UnmaskedContigs and DeduplicatedContigs tables,
    the flanking windows cut around an annotation
    (libFURdatabase.populateFlankingRegions) and the translation of the
    segments of a row into contig rows in chromosome coordinates
    (libFURdatabase.populateUnmaskedContigs). */
module Contigs {
  import opened Wrappers
  import opened PyStr
  import opened UnmaskedSeq

  /** A row of a sequence table: the annotation it belongs to, its sequence
      and the chromosome coordinates it was cut from. */
  datatype SeqRow = SeqRow(annotation: int, sequence: string, start: int, end: int)

  /** A flanking window: the sequence and the coordinates stored with it. */
  datatype Window = Window(sequence: string, start: int, end: int)

  // ------------------------------------------------------------ windows

  /** The region following an annotation that ends at alignEnd: `size`
      characters from alignEnd + offset.  When the slice comes out shorter,
      the stored end becomes alignEnd plus the slice's length; an empty slice
      is not stored. */
  function Downstream(chr: string, alignEnd: int, size: int, offset: int): (w: Option<Window>)
    ensures w.Some? ==> w.value.sequence != "" && w.value.start == alignEnd + offset
    ensures w.Some? && size >= 0 ==> |w.value.sequence| <= size
  {
    var startpos := alignEnd + offset;
    var endpos := startpos + size;
    var s := Slice(chr, startpos, endpos);
    SliceAtMost(chr, startpos, endpos);
    var stored := if |s| != size then alignEnd + |s| else endpos;
    if s != "" then Some(Window(s, startpos, stored)) else None
  }

  /** The region preceding an annotation that starts at alignStart: `size`
      characters ending at alignStart - offset.  When the slice comes out
      shorter, the stored start becomes alignStart minus the slice's length;
      an empty slice is not stored. */
  function Upstream(chr: string, alignStart: int, size: int, offset: int): (w: Option<Window>)
    ensures w.Some? ==> w.value.sequence != "" && w.value.end == alignStart - offset
    ensures w.Some? && size >= 0 ==> |w.value.sequence| <= size
  {
    var endpos := alignStart - offset;
    var startpos := endpos - size;
    var s := Slice(chr, startpos, endpos);
    SliceAtMost(chr, startpos, endpos);
    var stored := if |s| != size then alignStart - |s| else startpos;
    if s != "" then Some(Window(s, stored, endpos)) else None
  }

  /** With no offset the stored coordinates span exactly the stored sequence,
      clipped or not. */
  lemma WindowsNoOffset(chr: string, alignStart: int, alignEnd: int, size: int)
    ensures Downstream(chr, alignEnd, size, 0).Some? ==>
      var w := Downstream(chr, alignEnd, size, 0).value; w.end - w.start == |w.sequence|
    ensures Upstream(chr, alignStart, size, 0).Some? ==>
      var w := Upstream(chr, alignStart, size, 0).value; w.end - w.start == |w.sequence|
  {
  }

  /** A window that lies inside the chromosome is stored whole. */
  lemma DownstreamInside(chr: string, alignEnd: int, size: int, offset: int)
    requires 0 <= alignEnd + offset && alignEnd + offset + size <= |chr| && size > 0
    ensures Downstream(chr, alignEnd, size, offset)
      == Some(Window(chr[alignEnd + offset..alignEnd + offset + size], alignEnd + offset, alignEnd + offset + size))
  {
  }

  lemma UpstreamInside(chr: string, alignStart: int, size: int, offset: int)
    requires 0 <= alignStart - offset - size && alignStart - offset <= |chr| && size > 0
    ensures Upstream(chr, alignStart, size, offset)
      == Some(Window(chr[alignStart - offset - size..alignStart - offset], alignStart - offset - size, alignStart - offset))
  {
  }

  /** A downstream window that starts inside the chromosome holds the
      characters from its start on, up to `size` of them or the end. */
  lemma DownstreamClipped(chr: string, alignEnd: int, size: int, offset: int)
    requires 0 <= alignEnd + offset < |chr| && size > 0
    ensures Downstream(chr, alignEnd, size, offset).Some?
    ensures var w := Downstream(chr, alignEnd, size, offset).value;
      var stop := if alignEnd + offset + size <= |chr| then alignEnd + offset + size else |chr|;
      w.sequence == chr[alignEnd + offset..stop]
  {
  }

  /** As written, a clipped window with an offset stores an end that is not
      start + len(sequence): here ten characters are wanted from position
      6 (alignEnd 4, offset 2) of a ten-character chromosome; four are cut,
      and the stored range is [6, 8). */
  lemma ClippedWindowWithOffset()
    ensures Downstream("ACGTACGTAC", 4, 10, 2) == Some(Window("GTAC", 6, 8))
  {
    assert Slice("ACGTACGTAC", 6, 16) == "GTAC";
  }

  /** Python's negative slice indices make the upstream window of an
      annotation that starts less than `size` (plus the offset) into a
      chromosome at least `size` long empty, so no row is stored for it
      rather than a clipped one. */
  lemma UpstreamNearStartEmpty(chr: string, alignStart: int, size: int, offset: int)
    requires 0 <= alignStart - offset < size <= |chr|
    ensures Upstream(chr, alignStart, size, offset).None?
  {
  }

  /** When the window would end before position 0 as well (alignStart <
      offset), both slice indices count from the end of the chromosome: a
      whole window is cut from its end and stored at negative coordinates. */
  lemma UpstreamWrapsAround(chr: string, alignStart: int, size: int, offset: int)
    requires alignStart - offset < 0 < size && size - (alignStart - offset) <= |chr|
    ensures var e := alignStart - offset;
      Upstream(chr, alignStart, size, offset) == Some(Window(chr[|chr| + e - size..|chr| + e], e - size, e))
  {
  }

  /** The instance: an annotation at 2 with offset 5 on a twenty-character
      chromosome stores the five characters ending three before its end, at
      [-8, -3). */
  lemma UpstreamWrapExample()
    ensures Upstream("ABCDEFGHIJKLMNOPQRST", 2, 5, 5) == Some(Window("MNOPQ", -8, -3))
  {
    UpstreamWrapsAround("ABCDEFGHIJKLMNOPQRST", 2, 5, 5);
    assert "ABCDEFGHIJKLMNOPQRST"[12..17] == "MNOPQ";
  }

  /** When the window end lies inside the chromosome but its start lies
      further than |chr| before 0 (possible only on a chromosome shorter than
      `size`), the start is clamped to 0: the characters before the window
      end are stored, clipped, and the stored start is moved accordingly. */
  lemma UpstreamShortChromosome(chr: string, alignStart: int, size: int, offset: int)
    requires 0 < alignStart - offset <= |chr| && |chr| + (alignStart - offset) <= size
    ensures var e := alignStart - offset;
      Upstream(chr, alignStart, size, offset) == Some(Window(chr[..e], alignStart - e, e))
  {
  }

  // ------------------------------------------------------- contig rows

  /** The rows cut from `row` at the given segments of its sequence: each keeps
      the annotation, holds `row.sequence[s:e]` and is placed at
      `row.start + s` .. `row.start + e`. */
  function ContigRows(row: SeqRow, segments: seq<Segment>): (r: seq<SeqRow>)
    ensures |r| == |segments|
    ensures forall k :: 0 <= k < |r| ==> r[k].annotation == row.annotation
  {
    seq(|segments|, k requires 0 <= k < |segments| =>
      SeqRow(row.annotation, Slice(row.sequence, segments[k].start, segments[k].end),
             segments[k].start + row.start, segments[k].end + row.start))
  }

  /** What populateUnmaskedContigs adds for one flanking row: nothing for an
      empty sequence, otherwise a row per segment of the sequence. */
  function UnmaskedRowsOf(flank: SeqRow, minsize: int): seq<SeqRow>
  {
    if flank.sequence != "" then ContigRows(flank, Segments(flank.sequence, minsize)) else []
  }

  /** Each unmasked contig row holds the flanking sequence between its segment's
      ends, so its coordinates span exactly its sequence; that sequence is at
      least `minsize` long, starts with an uppercase character and holds no
      lowercase one. */
  lemma UnmaskedRowShape(flank: SeqRow, minsize: int, k: nat)
    requires k < |UnmaskedRowsOf(flank, minsize)|
    ensures var r := UnmaskedRowsOf(flank, minsize)[k];
      var g := Segments(flank.sequence, minsize)[k];
      g.start < g.end < |flank.sequence|
      && r.sequence == flank.sequence[g.start..g.end]
      && r.start == flank.start + g.start && r.end == flank.start + g.end
      && r.end - r.start == |r.sequence| >= minsize && r.annotation == flank.annotation
      && IsUpper(r.sequence[0]) && forall p :: 0 <= p < |r.sequence| ==> !IsLower(r.sequence[p])
  {
    SegmentsContents(flank.sequence, minsize, k);
    var g := Segments(flank.sequence, minsize)[k];
    var r := UnmaskedRowsOf(flank, minsize)[k];
    assert r.sequence == flank.sequence[g.start..g.end];
    forall p | 0 <= p < |r.sequence| ensures !IsLower(r.sequence[p]) {
      assert r.sequence[p] == flank.sequence[g.start + p];
    }
  }

  /** A flanking row with an empty sequence gives no contig row. */
  lemma EmptyFlankNoRows(flank: SeqRow, minsize: int)
    requires flank.sequence == ""
    ensures UnmaskedRowsOf(flank, minsize) == []
  {
  }
}
