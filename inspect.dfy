/** The inspection queries of libFURinspect over the annotation and contig
    tables: the annotations whose flanking regions overlap (overlappingAnnos)
    and the number and largest size of the regions at each end of every
    annotation (regionCount). */
module FurInspect {
  import opened Wrappers
  import opened AnalysisStrand

  /** A row of the annotations table as both queries select it. */
  datatype AnnoRow = AnnoRow(id: int, chrName: string, alignStart: int, alignEnd: int, strand: string)

  // ----------------------------------------------------- overlapping regions

  /** The flanking regions of an annotation: (start1, end1) before it and
      (start2, end2) after it, each `size` wide and `offset` away. */
  datatype Regions = Regions(start1: int, end1: int, start2: int, end2: int)

  function RegionsOf(a: AnnoRow, size: int, offset: int): (r: Regions)
    ensures r.end1 - r.start1 == size && r.end2 - r.start2 == size
    ensures r.end1 == a.alignStart - offset && r.start2 == a.alignEnd + offset
  {
    var regionWithOffset := size + offset;
    Regions(a.alignStart - regionWithOffset, a.alignStart - offset, a.alignEnd + offset, a.alignEnd + regionWithOffset)
  }

  /** The regions are the flanking positions annotationData computes: the one
      before the annotation is the antisense region on the + strand and the
      sense region on any other. */
  lemma RegionsAreFlanks(a: AnnoRow, size: int, offset: int)
    ensures var r := RegionsOf(a, size, offset);
      var p := FlankingPositions(a.strand, a.alignStart, a.alignEnd, size, offset);
      (a.strand == "+" ==> (r.start1, r.end1, r.start2, r.end2) == (p.antiStart, p.antiEnd, p.senseStart, p.senseEnd))
      && (a.strand != "+" ==> (r.start1, r.end1, r.start2, r.end2) == (p.senseStart, p.senseEnd, p.antiStart, p.antiEnd))
  {
  }

  /** x lies strictly between lo and hi. */
  predicate Inside(x: int, lo: int, hi: int)
  {
    lo < x && x < hi
  }

  /** The entry overlappingAnnos adds for annotation a when comparing it with
      the query annotation q: its tag, or nothing. */
  function PairTag(q: AnnoRow, a: AnnoRow, size: int, offset: int): (r: Option<int>)
    ensures r.Some? ==> r.value == 1 || r.value == 2
    ensures q.chrName != a.chrName ==> r.None?
    ensures RegionsOf(a, size, offset).start1 > RegionsOf(q, size, offset).end2 ==> r.None?
    ensures RegionsOf(a, size, offset).end2 < RegionsOf(q, size, offset).start1 ==> r.None?
  {
    var Q := RegionsOf(q, size, offset);
    var R := RegionsOf(a, size, offset);
    if q.chrName != a.chrName then None
    else if R.start1 > Q.end2 || R.end2 < Q.start1 then None
    else if Inside(R.start1, Q.start1, Q.end1) || Inside(R.end1, Q.start1, Q.end1) then Some(1)
    else if Inside(R.start1, Q.start2, Q.end2) || Inside(R.end1, Q.start2, Q.end2) then Some(1)
    else if Inside(R.start2, Q.start1, Q.end1) || Inside(R.end2, Q.start1, Q.end1) then Some(2)
    else if Inside(R.start2, Q.start1, Q.end1) || Inside(R.end2, Q.start1, Q.end1) then Some(2)
    else None
  }

  /** The tags as the comparisons decide them: 1 when an end of the first
      region of a lies strictly inside a region of q, otherwise 2 when an end
      of its second region lies strictly inside the first region of q.  The
      last test repeats the one before it, so the second region of a is never
      compared with the second region of q. */
  lemma PairTagCases(q: AnnoRow, a: AnnoRow, size: int, offset: int)
    ensures var Q := RegionsOf(q, size, offset);
      var R := RegionsOf(a, size, offset);
      var near := q.chrName == a.chrName && !(R.start1 > Q.end2 || R.end2 < Q.start1);
      var first := Inside(R.start1, Q.start1, Q.end1) || Inside(R.end1, Q.start1, Q.end1)
        || Inside(R.start1, Q.start2, Q.end2) || Inside(R.end1, Q.start2, Q.end2);
      var second := Inside(R.start2, Q.start1, Q.end1) || Inside(R.end2, Q.start1, Q.end1);
      (PairTag(q, a, size, offset) == Some(1) <==> near && first)
      && (PairTag(q, a, size, offset) == Some(2) <==> near && !first && second)
      && (PairTag(q, a, size, offset) == None <==> !near || (!first && !second))
  {
  }

  /** With 10-base regions and no offset, an annotation at 150-201 has its
      second region (201, 211) inside the second region (200, 210) of an
      annotation at 100-200, yet no entry is made. */
  lemma SecondRegionsNotCompared()
    ensures var q := AnnoRow(1, "chr1", 100, 200, "+");
      var a := AnnoRow(2, "chr1", 150, 201, "+");
      Inside(RegionsOf(a, 10, 0).start2, RegionsOf(q, 10, 0).start2, RegionsOf(q, 10, 0).end2)
      && PairTag(q, a, 10, 0) == None
  {
  }

  /** The tests are strict: a region starting where a query region ends does
      not overlap it. */
  lemma TouchingRegionsNotOverlap()
    ensures var q := AnnoRow(1, "chr1", 100, 200, "+");
      var a := AnnoRow(2, "chr1", 220, 300, "+");
      RegionsOf(a, 10, 0).start1 == RegionsOf(q, 10, 0).end2 && PairTag(q, a, 10, 0) == None
  {
  }

  /** The entries made for query q against the first n annotations, skipping
      q's own id. */
  function OverlapsOf(q: AnnoRow, anns: seq<AnnoRow>, n: nat, size: int, offset: int): (r: seq<(int, int)>)
    requires n <= |anns|
    ensures |r| <= n
  {
    if n == 0 then []
    else
      var before := OverlapsOf(q, anns, n - 1, size, offset);
      var a := anns[n - 1];
      var tag := if a.id == q.id then None else PairTag(q, a, size, offset);
      if tag.Some? then before + [(a.id, tag.value)] else before
  }

  /** The entry names one of the first n annotations, with another id than
      the query and on the same chromosome, for which the comparison gave the
      entry's tag. */
  predicate EntryFrom(q: AnnoRow, anns: seq<AnnoRow>, n: nat, size: int, offset: int, e: (int, int))
    requires n <= |anns|
  {
    exists j ::
      0 <= j < n && anns[j].id != q.id && anns[j].chrName == q.chrName
      && e.0 == anns[j].id && PairTag(q, anns[j], size, offset) == Some(e.1)
  }

  /** Every entry for a query names another annotation, on the same
      chromosome, for which the comparison gave that tag. */
  lemma {:induction false} OverlapsOfEntries(q: AnnoRow, anns: seq<AnnoRow>, n: nat, size: int, offset: int)
    requires n <= |anns|
    ensures forall k :: 0 <= k < |OverlapsOf(q, anns, n, size, offset)| ==> EntryFrom(q, anns, n, size, offset, OverlapsOf(q, anns, n, size, offset)[k])
  {
    if n > 0 {
      OverlapsOfEntries(q, anns, n - 1, size, offset);
      var before := OverlapsOf(q, anns, n - 1, size, offset);
      var r := OverlapsOf(q, anns, n, size, offset);
      forall k | 0 <= k < |r| ensures EntryFrom(q, anns, n, size, offset, r[k]) {
        if k < |before| {
          assert r[k] == before[k];
          assert EntryFrom(q, anns, n - 1, size, offset, before[k]);
        } else {
          var j := n - 1;
          assert anns[j].id != q.id && r[k].0 == anns[j].id && PairTag(q, anns[j], size, offset) == Some(r[k].1);
        }
      }
    }
  }

  /** An annotation with a tag for the query and another id has its entry. */
  lemma {:induction false} OverlapsOfComplete(q: AnnoRow, anns: seq<AnnoRow>, n: nat, size: int, offset: int, j: nat)
    requires j < n <= |anns| && anns[j].id != q.id && PairTag(q, anns[j], size, offset).Some?
    ensures (anns[j].id, PairTag(q, anns[j], size, offset).value) in OverlapsOf(q, anns, n, size, offset)
  {
    if j < n - 1 {
      OverlapsOfComplete(q, anns, n - 1, size, offset, j);
    }
  }

  /** The inner loop of overlappingAnnos, for one query annotation. */
  method QueryOverlaps(q: AnnoRow, anns: seq<AnnoRow>, size: int, offset: int) returns (results: seq<(int, int)>)
    ensures results == OverlapsOf(q, anns, |anns|, size, offset)
  {
    results := [];
    for k := 0 to |anns|
      invariant results == OverlapsOf(q, anns, k, size, offset)
    {
      var a := anns[k];
      if a.id != q.id {
        var tag := PairTag(q, a, size, offset);
        if tag.Some? {
          results := results + [(a.id, tag.value)];
        }
      }
    }
  }

  /** The entries for the first n query annotations. */
  function AllOverlaps(anns: seq<AnnoRow>, n: nat, size: int, offset: int): seq<(int, int)>
    requires n <= |anns|
  {
    if n == 0 then [] else AllOverlaps(anns, n - 1, size, offset) + OverlapsOf(anns[n - 1], anns, |anns|, size, offset)
  }

  /** overlappingAnnos, given the flanking size and offset of the info table. */
  method OverlappingAnnos(anns: seq<AnnoRow>, regionsize: int, regionoffset: int) returns (results: seq<(int, int)>)
    ensures results == AllOverlaps(anns, |anns|, regionsize, regionoffset)
  {
    results := [];
    for k := 0 to |anns|
      invariant results == AllOverlaps(anns, k, regionsize, regionoffset)
    {
      var found := QueryOverlaps(anns[k], anns, regionsize, regionoffset);
      results := results + found;
    }
  }

  // ------------------------------------------------------------ region count

  /** A row of the contig table as regionCount selects it. */
  datatype ContigRow = ContigRow(id: int, annotation: int, start: int, end: int)

  /** `[senseCount, senseLargest, antiCount, antiLargest]` */
  datatype RegionInfo = RegionInfo(senseCount: int, senseLargest: int, antiCount: int, antiLargest: int)

  /** regionCount's test: a contig starting at or before a + strand
      annotation, or after a - strand one, is at its antisense end. */
  predicate Antisense(start: int, alignStart: int, strand: string)
  {
    (start <= alignStart && strand == "+") || (start > alignStart && strand == "-")
  }

  /** The counts after the first n contig rows, of which those of annotation
      a are counted. */
  function RegionAfter(a: AnnoRow, contigs: seq<ContigRow>, n: nat): RegionInfo
    requires n <= |contigs|
  {
    if n == 0 then RegionInfo(0, 0, 0, 0)
    else
      var i := RegionAfter(a, contigs, n - 1);
      var c := contigs[n - 1];
      var size := c.end - c.start;
      if c.annotation != a.id then i
      else if Antisense(c.start, a.alignStart, a.strand) then
        i.(antiCount := i.antiCount + 1, antiLargest := if size > i.antiLargest then size else i.antiLargest)
      else
        i.(senseCount := i.senseCount + 1, senseLargest := if size > i.senseLargest then size else i.senseLargest)
  }

  /** The inner loop of regionCount, for one annotation. */
  method CountRegions(a: AnnoRow, contigs: seq<ContigRow>) returns (info: RegionInfo)
    ensures info == RegionAfter(a, contigs, |contigs|)
  {
    var senseCount, antiCount, senseLargest, antiLargest := 0, 0, 0, 0;
    for k := 0 to |contigs|
      invariant RegionInfo(senseCount, senseLargest, antiCount, antiLargest) == RegionAfter(a, contigs, k)
    {
      var c := contigs[k];
      if c.annotation == a.id {
        if (c.start <= a.alignStart && a.strand == "+") || (c.start > a.alignStart && a.strand == "-") {
          antiCount := antiCount + 1;
          var size := c.end - c.start;
          if size > antiLargest {
            antiLargest := size;
          }
        } else {
          senseCount := senseCount + 1;
          var size := c.end - c.start;
          if size > senseLargest {
            senseLargest := size;
          }
        }
      }
    }
    info := RegionInfo(senseCount, senseLargest, antiCount, antiLargest);
  }

  /** regionInfo after the first n annotations: a later annotation with the
      same id replaces the entry. */
  function RegionMap(anns: seq<AnnoRow>, contigs: seq<ContigRow>, n: nat): map<int, RegionInfo>
    requires n <= |anns|
  {
    if n == 0 then map[]
    else RegionMap(anns, contigs, n - 1)[anns[n - 1].id := RegionAfter(anns[n - 1], contigs, |contigs|)]
  }

  /** regionCount */
  method RegionCount(anns: seq<AnnoRow>, contigs: seq<ContigRow>) returns (regionInfo: map<int, RegionInfo>)
    ensures regionInfo == RegionMap(anns, contigs, |anns|)
  {
    regionInfo := map[];
    for k := 0 to |anns|
      invariant regionInfo == RegionMap(anns, contigs, k)
    {
      var info := CountRegions(anns[k], contigs);
      regionInfo := regionInfo[anns[k].id := info];
    }
  }

  /** The contig rows (among the first n) of annotation a at one end. */
  function AtEnd(a: AnnoRow, contigs: seq<ContigRow>, n: nat, anti: bool): set<nat>
    requires n <= |contigs|
  {
    set k: nat | k < n && contigs[k].annotation == a.id && Antisense(contigs[k].start, a.alignStart, a.strand) == anti
  }

  function EndCount(i: RegionInfo, anti: bool): int
  {
    if anti then i.antiCount else i.senseCount
  }

  function EndLargest(i: RegionInfo, anti: bool): int
  {
    if anti then i.antiLargest else i.senseLargest
  }

  /** Adding contig n - 1 to the rows considered adds it to its end only. */
  lemma AtEndStep(a: AnnoRow, contigs: seq<ContigRow>, n: nat, anti: bool)
    requires 0 < n <= |contigs|
    ensures var c := contigs[n - 1];
      AtEnd(a, contigs, n, anti) == AtEnd(a, contigs, n - 1, anti)
        + (if c.annotation == a.id && Antisense(c.start, a.alignStart, a.strand) == anti then {n - 1} else {})
  {
  }

  /** Each end counts exactly its contigs. */
  lemma {:induction false} RegionAfterCount(a: AnnoRow, contigs: seq<ContigRow>, n: nat, anti: bool)
    requires n <= |contigs|
    ensures EndCount(RegionAfter(a, contigs, n), anti) == |AtEnd(a, contigs, n, anti)|
  {
    if n > 0 {
      RegionAfterCount(a, contigs, n - 1, anti);
      AtEndStep(a, contigs, n, anti);
    }
  }

  /** Each largest is the largest size at that end, or 0 when there is no
      contig there and when every size is negative. */
  lemma {:induction false} RegionAfterLargest(a: AnnoRow, contigs: seq<ContigRow>, n: nat, anti: bool)
    requires n <= |contigs|
    ensures var largest := EndLargest(RegionAfter(a, contigs, n), anti);
      largest >= 0
      && (forall k :: k in AtEnd(a, contigs, n, anti) ==> contigs[k].end - contigs[k].start <= largest)
      && (largest == 0 || exists k :: k in AtEnd(a, contigs, n, anti) && contigs[k].end - contigs[k].start == largest)
  {
    if n > 0 {
      RegionAfterLargest(a, contigs, n - 1, anti);
      AtEndStep(a, contigs, n, anti);
    }
  }

  /** The two counts add up to the annotation's contigs. */
  lemma RegionAfterTotal(a: AnnoRow, contigs: seq<ContigRow>, n: nat)
    requires n <= |contigs|
    ensures RegionAfter(a, contigs, n).senseCount + RegionAfter(a, contigs, n).antiCount
      == |set k: nat | k < n && contigs[k].annotation == a.id|
  {
    RegionAfterCount(a, contigs, n, true);
    RegionAfterCount(a, contigs, n, false);
    var all := set k: nat | k < n && contigs[k].annotation == a.id;
    assert all == AtEnd(a, contigs, n, true) + AtEnd(a, contigs, n, false);
    assert AtEnd(a, contigs, n, true) * AtEnd(a, contigs, n, false) == {};
  }

  /** With distinct annotation ids, each annotation's entry is its own
      count. */
  lemma {:induction false} RegionMapLookup(anns: seq<AnnoRow>, contigs: seq<ContigRow>, n: nat, j: nat)
    requires j < n <= |anns|
    requires forall x, y :: 0 <= x < y < |anns| ==> anns[x].id != anns[y].id
    ensures anns[j].id in RegionMap(anns, contigs, n)
    ensures RegionMap(anns, contigs, n)[anns[j].id] == RegionAfter(anns[j], contigs, |contigs|)
  {
    if j < n - 1 {
      RegionMapLookup(anns, contigs, n - 1, j);
    }
  }

  /** regionCount and isSense agree on + and - strand annotations except for a
      contig on a - strand annotation starting exactly at its start, which
      regionCount puts at the sense end while isSense does not. */
  lemma AntisenseAgainstIsSense(start: int, alignStart: int, strand: string)
    requires strand == "+" || strand == "-"
    ensures !(strand == "-" && start == alignStart) ==>
      (Antisense(start, alignStart, strand) <==> IsSense(alignStart, strand, start).None?)
    ensures strand == "-" && start == alignStart ==>
      !Antisense(start, alignStart, strand) && IsSense(alignStart, strand, start).None?
  {
  }

  /** On an annotation of neither strand, regionCount puts every contig at the
      sense end while isSense never does. */
  lemma NoStrandAllSense(start: int, alignStart: int, strand: string)
    requires strand != "+" && strand != "-"
    ensures !Antisense(start, alignStart, strand) && IsSense(alignStart, strand, start).None?
  {
  }
}
