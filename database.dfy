/** The database population steps of libFURdatabase.database, with the SQL
    tables held as sequences of rows and each INSERT an append.  The tables
    are never cleared here, so a row's AUTOINCREMENT id is its position in
    its table plus one. */
module FurDatabase {
  import opened Wrappers
  import opened PyStr
  import opened TextFile
  import opened GenomeIndex
  import opened UnmaskedSeq
  import opened Contigs
  import opened Dedup
  import opened Reconcile

  /** A row of the annotations table, as populateFlankingRegions reads it. */
  datatype AnnotationRow = AnnotationRow(id: int, chrName: string, alignStart: int, alignEnd: int, strand: string)

  // ------------------------------------------------------ specifications

  /** `SELECT DISTINCT chrName FROM annotations`, in order of first appearance. */
  function DistinctChrs(anns: seq<AnnotationRow>, n: nat): seq<string>
    requires n <= |anns|
  {
    if n == 0 then []
    else
      var front := DistinctChrs(anns, n - 1);
      if anns[n - 1].chrName in front then front else front + [anns[n - 1].chrName]
  }

  /** Every chromosome of the annotations is listed, once. */
  lemma {:induction false} DistinctChrsExact(anns: seq<AnnotationRow>, n: nat)
    requires n <= |anns|
    ensures forall c :: c in DistinctChrs(anns, n) <==> exists k :: 0 <= k < n && anns[k].chrName == c
    ensures forall i, j :: 0 <= i < j < |DistinctChrs(anns, n)| ==> DistinctChrs(anns, n)[i] != DistinctChrs(anns, n)[j]
  {
    if n > 0 {
      DistinctChrsExact(anns, n - 1);
      forall c | exists k :: 0 <= k < n && anns[k].chrName == c
        ensures c in DistinctChrs(anns, n)
      {
        var k :| 0 <= k < n && anns[k].chrName == c;
        if k < n - 1 {
          assert c in DistinctChrs(anns, n - 1);
        }
      }
    }
  }

  function WindowRows(annotation: int, w: Option<Window>): seq<SeqRow>
  {
    if w.Some? then [SeqRow(annotation, w.value.sequence, w.value.start, w.value.end)] else []
  }

  /** The flanking rows of one annotation: downstream window, then upstream. */
  function FlankRowsFor(ann: AnnotationRow, chrSequence: string, size: int, offset: int): seq<SeqRow>
  {
    WindowRows(ann.id, Downstream(chrSequence, ann.alignEnd, size, offset))
      + WindowRows(ann.id, Upstream(chrSequence, ann.alignStart, size, offset))
  }

  /** The flanking rows of the first n annotations that lie on chromosome chr. */
  function ChrFlanks(anns: seq<AnnotationRow>, n: nat, chr: string, chrSequence: string, size: int, offset: int): seq<SeqRow>
    requires n <= |anns|
  {
    if n == 0 then []
    else
      ChrFlanks(anns, n - 1, chr, chrSequence, size, offset)
        + (if anns[n - 1].chrName == chr then FlankRowsFor(anns[n - 1], chrSequence, size, offset) else [])
  }

  /** The flanking rows of the first n chromosomes of `chrs`; a chromosome
      without a sequence is skipped. */
  function FlankingFor(anns: seq<AnnotationRow>, chrs: seq<string>, n: nat, lines: seq<Line>,
                       index: map<string, nat>, size: int, offset: int): seq<SeqRow>
    requires n <= |chrs|
    requires forall c :: c in index ==> StartsLine(lines, index[c])
  {
    if n == 0 then []
    else
      var chrSequence := ChrSequence(lines, index, chrs[n - 1]);
      FlankingFor(anns, chrs, n - 1, lines, index, size, offset)
        + (if chrSequence == "" then [] else ChrFlanks(anns, |anns|, chrs[n - 1], chrSequence, size, offset))
  }

  /** The UnmaskedContigs rows of the first n flanking rows. */
  function UnmaskedFor(flanks: seq<SeqRow>, n: nat, minsize: int): seq<SeqRow>
    requires n <= |flanks|
  {
    if n == 0 then [] else UnmaskedFor(flanks, n - 1, minsize) + UnmaskedRowsOf(flanks[n - 1], minsize)
  }

  /** `SELECT ... FROM UnmaskedContigs WHERE id=<contig>`: the row whose id the
      query name spells, if there is one. */
  function LookupUnmasked(table: seq<SeqRow>, contig: string): (r: seq<SeqRow>)
    ensures |r| <= 1
    ensures ParseInt(contig).None? ==> r == []
  {
    var id := ParseInt(contig);
    if id.Some? && 1 <= id.value <= |table| then [table[id.value - 1]] else []
  }

  /** The DeduplicatedContigs rows for one contig name of the tally: none
      when no UnmaskedContigs row has that id. */
  function DedupOfContig(contig: string, info: map<string, Matches>, unmasked: seq<SeqRow>,
                         minsize: int, expdup: int): seq<SeqRow>
  {
    var rows := LookupUnmasked(unmasked, contig);
    if contig in info && rows != [] then DedupRowsFor(rows[0], info[contig], minsize, expdup) else []
  }

  /** The DeduplicatedContigs rows for the contigs named by the first n keys
      of the tally. */
  function DedupFor(order: seq<string>, info: map<string, Matches>, n: nat, unmasked: seq<SeqRow>,
                    minsize: int, expdup: int): seq<SeqRow>
    requires n <= |order|
  {
    if n == 0 then []
    else DedupFor(order, info, n - 1, unmasked, minsize, expdup) + DedupOfContig(order[n - 1], info, unmasked, minsize, expdup)
  }

  // -------------------------------------------------------------- lemmas

  /** The one or two rows of an annotation hold non-empty sequences of at
      most `size` characters, carry its id, and with no offset their
      coordinates span exactly their sequences. */
  lemma FlankRowsShape(ann: AnnotationRow, chrSequence: string, size: int, offset: int)
    requires size >= 0
    ensures |FlankRowsFor(ann, chrSequence, size, offset)| <= 2
    ensures forall r :: r in FlankRowsFor(ann, chrSequence, size, offset) ==>
      r.annotation == ann.id && r.sequence != "" && |r.sequence| <= size
      && (offset == 0 ==> r.end - r.start == |r.sequence|)
  {
    WindowsNoOffset(chrSequence, ann.alignStart, ann.alignEnd, size);
    var down := WindowRows(ann.id, Downstream(chrSequence, ann.alignEnd, size, offset));
    var up := WindowRows(ann.id, Upstream(chrSequence, ann.alignStart, size, offset));
    assert FlankRowsFor(ann, chrSequence, size, offset) == down + up;
    forall r: SeqRow | r in down + up
      ensures r.annotation == ann.id && r.sequence != "" && |r.sequence| <= size
      && (offset == 0 ==> r.end - r.start == |r.sequence|)
    {
      if r in down {
        assert r == down[0];
      } else {
        assert r == up[0];
      }
    }
  }

  /** Every flanking row of a chromosome belongs to an annotation on that
      chromosome and holds a non-empty sequence of at most `size` characters;
      with no offset its coordinates span exactly that sequence. */
  lemma {:induction false} ChrFlanksShape(anns: seq<AnnotationRow>, n: nat, chr: string, chrSequence: string,
                                          size: int, offset: int, r: SeqRow)
    requires n <= |anns| && size >= 0
    requires r in ChrFlanks(anns, n, chr, chrSequence, size, offset)
    ensures r.sequence != "" && |r.sequence| <= size && (offset == 0 ==> r.end - r.start == |r.sequence|)
    ensures exists k :: 0 <= k < n && anns[k].chrName == chr && anns[k].id == r.annotation
  {
    var front := ChrFlanks(anns, n - 1, chr, chrSequence, size, offset);
    if r in front {
      ChrFlanksShape(anns, n - 1, chr, chrSequence, size, offset, r);
      var k :| 0 <= k < n - 1 && anns[k].chrName == chr && anns[k].id == r.annotation;
    } else {
      FlankRowsShape(anns[n - 1], chrSequence, size, offset);
      assert anns[n - 1].chrName == chr;
    }
  }

  /** A contig whose name is no row id gives no deduplicated row; one that
      found only itself expdup times and no partial copy is copied over
      unchanged. */
  lemma DedupKeepsWholeRow(unmasked: seq<SeqRow>, contig: string, m: Matches, minsize: int, expdup: int)
    requires m.large == expdup && m.ranges == []
    ensures LookupUnmasked(unmasked, contig) == [] ||
      DedupRowsFor(LookupUnmasked(unmasked, contig)[0], m, minsize, expdup) == LookupUnmasked(unmasked, contig)
  {
  }

  /** str(id) of the row at position k refers back to that row. */
  lemma LookupById(table: seq<SeqRow>, k: nat)
    requires k < |table|
    ensures LookupUnmasked(table, IntToString(k + 1)) == [table[k]]
  {
    IntToStringRoundTrip(k + 1);
  }

  // -------------------------------------------------------------- the class

  class Database {
    var annotations: seq<AnnotationRow>
    var flanking: seq<SeqRow>
    var unmasked: seq<SeqRow>
    var deduplicated: seq<SeqRow>
    // the info table
    var flankingsize: int
    var flankingoffset: int
    var mincontigsize: int

    /** A database whose annotations table is filled and whose sequence tables
        are empty. */
    constructor (anns: seq<AnnotationRow>)
      ensures annotations == anns && flanking == [] && unmasked == [] && deduplicated == []
      ensures flankingsize == 0 && flankingoffset == 0 && mincontigsize == 0
    {
      annotations := anns;
      flanking := [];
      unmasked := [];
      deduplicated := [];
      flankingsize, flankingoffset, mincontigsize := 0, 0, 0;
    }

    /** populateFlankingRegions: indexes the genome FASTA file, loads each
        chromosome the annotations name and stores the windows around each
        annotation on it; the window size and offset go to the info table. */
    method PopulateFlankingRegions(genome: PyFile, size: int, offset: int)
      requires genome.Valid()
      modifies this, genome
      ensures genome.Valid()
      ensures var index := HeadersFrom(genome.lines, old(genome.cur));
        (forall c :: c in index ==> StartsLine(genome.lines, index[c]))
        && flanking == old(flanking)
           + FlankingFor(annotations, DistinctChrs(annotations, |annotations|), |DistinctChrs(annotations, |annotations|)|,
                         genome.lines, index, size, offset)
      ensures flankingsize == size && flankingoffset == offset && mincontigsize == old(mincontigsize)
      ensures annotations == old(annotations) && unmasked == old(unmasked) && deduplicated == old(deduplicated)
    {
      var genomeIndex := IndexFasta(genome);
      HeadersFromStartsLine(genome.lines, old(genome.cur));
      flankingsize, flankingoffset := size, offset;
      var chrPresent := DistinctChrs(annotations, |annotations|);
      var rows := FlankingRows(genome, annotations, chrPresent, genomeIndex, size, offset);
      flanking := flanking + rows;
    }

    /** populateUnmaskedContigs: cuts every flanking row at its unmasked runs
        of at least minsize characters; minsize goes to the info table. */
    method PopulateUnmaskedContigs(minsize: int)
      modifies this
      ensures unmasked == old(unmasked) + UnmaskedFor(flanking, |flanking|, minsize)
      ensures mincontigsize == minsize
      ensures flankingsize == old(flankingsize) && flankingoffset == old(flankingoffset)
      ensures annotations == old(annotations) && flanking == old(flanking) && deduplicated == old(deduplicated)
    {
      mincontigsize := minsize;
      var rows := UnmaskedRows(flanking, minsize);
      unmasked := unmasked + rows;
    }

    /** populateDeduplicatedContigs: tallies the PSL file of the UnmaskedContigs
        alignments and adds each contig's rows by the decision.  An exception
        the PSL file raises is returned, and nothing is added. */
    method PopulateDeduplicatedContigs(psl: PyFile, minsize: int, ignorealt: bool, expdup: int)
      returns (error: Option<PyError>)
      requires psl.Valid() && HasDataLine(psl.lines, 0)
      modifies this, psl
      ensures var rest := psl.lines[FirstDataLine(psl.lines, 0)..];
        var tally := Process(Classify(rest, minsize, ignorealt), |rest|);
        (tally.Err? ==> error == Some(tally.error) && deduplicated == old(deduplicated))
        && (tally.Ok? ==>
              error == None
              && deduplicated == old(deduplicated)
                 + DedupFor(tally.value.order, tally.value.info, |tally.value.order|, unmasked, minsize, expdup))
      ensures annotations == old(annotations) && flanking == old(flanking) && unmasked == old(unmasked)
      ensures flankingsize == old(flankingsize) && flankingoffset == old(flankingoffset)
      ensures mincontigsize == old(mincontigsize)
    {
      var dedupobj := new DedupFile(psl);
      var contigInfo := dedupobj.ProcessFile(minsize, ignorealt);
      if contigInfo.Err? {
        return Some(contigInfo.error);
      }
      var rows := DedupRows(contigInfo.value, unmasked, minsize, expdup);
      deduplicated := deduplicated + rows;
      error := None;
    }
  }

  /** The loop of populateFlankingRegions over the chromosomes: a chromosome
      the index does not hold loads as "" and is skipped. */
  method FlankingRows(genome: PyFile, anns: seq<AnnotationRow>, chrs: seq<string>, index: map<string, nat>,
                      size: int, offset: int) returns (rows: seq<SeqRow>)
    requires genome.Valid()
    requires forall c :: c in index ==> StartsLine(genome.lines, index[c])
    modifies genome
    ensures genome.Valid()
    ensures rows == FlankingFor(anns, chrs, |chrs|, genome.lines, index, size, offset)
  {
    rows := [];
    for c := 0 to |chrs|
      invariant genome.Valid()
      invariant rows == FlankingFor(anns, chrs, c, genome.lines, index, size, offset)
    {
      var chr := chrs[c];
      var chrSequence := LoadChr(genome, chr, index);
      if chrSequence != "" {
        var added := FlanksOfChr(anns, chr, chrSequence, size, offset);
        rows := rows + added;
      }
    }
  }

  /** The inner loop of populateFlankingRegions: for each annotation on the
      chromosome, the window after it and the window before it. */
  method FlanksOfChr(anns: seq<AnnotationRow>, chr: string, chrSequence: string, size: int, offset: int)
    returns (rows: seq<SeqRow>)
    ensures rows == ChrFlanks(anns, |anns|, chr, chrSequence, size, offset)
  {
    rows := [];
    for k := 0 to |anns|
      invariant rows == ChrFlanks(anns, k, chr, chrSequence, size, offset)
    {
      ChrFlanksStep(anns, k, chr, chrSequence, size, offset);
      var a := anns[k];
      if a.chrName == chr {
        var added := FlanksOfAnnotation(a, chrSequence, size, offset);
        rows := rows + added;
      }
    }
  }

  /** One more annotation adds its flanking rows at the end when it lies on
      the chromosome. */
  lemma ChrFlanksStep(anns: seq<AnnotationRow>, k: nat, chr: string, chrSequence: string, size: int, offset: int)
    requires k < |anns|
    ensures ChrFlanks(anns, k + 1, chr, chrSequence, size, offset)
      == ChrFlanks(anns, k, chr, chrSequence, size, offset)
         + (if anns[k].chrName == chr then FlankRowsFor(anns[k], chrSequence, size, offset) else [])
  {
  }

  /** The body of that loop for an annotation on the chromosome. */
  method FlanksOfAnnotation(a: AnnotationRow, chrSequence: string, size: int, offset: int) returns (rows: seq<SeqRow>)
    ensures rows == FlankRowsFor(a, chrSequence, size, offset)
  {
    rows := [];
    var following := Downstream(chrSequence, a.alignEnd, size, offset);
    if following.Some? {
      rows := rows + [SeqRow(a.id, following.value.sequence, following.value.start, following.value.end)];
    }
    var preceding := Upstream(chrSequence, a.alignStart, size, offset);
    if preceding.Some? {
      rows := rows + [SeqRow(a.id, preceding.value.sequence, preceding.value.start, preceding.value.end)];
    }
  }

  /** The loop of populateUnmaskedContigs over the flanking rows. */
  method UnmaskedRows(flanks: seq<SeqRow>, minsize: int) returns (rows: seq<SeqRow>)
    ensures rows == UnmaskedFor(flanks, |flanks|, minsize)
  {
    rows := [];
    for i := 0 to |flanks|
      invariant rows == UnmaskedFor(flanks, i, minsize)
    {
      var added := UnmaskedOf(flanks[i], minsize);
      UnmaskedForStep(flanks, i, minsize);
      rows := rows + added;
    }
  }

  /** One more flanking row adds its own contig rows at the end. */
  lemma UnmaskedForStep(flanks: seq<SeqRow>, i: nat, minsize: int)
    requires i < |flanks|
    ensures UnmaskedFor(flanks, i + 1, minsize) == UnmaskedFor(flanks, i, minsize) + UnmaskedRowsOf(flanks[i], minsize)
  {
  }

  /** One step of that loop: the contig rows cut from one flanking row. */
  method UnmaskedOf(flank: SeqRow, minsize: int) returns (added: seq<SeqRow>)
    ensures added == UnmaskedRowsOf(flank, minsize)
  {
    if flank.sequence != "" {
      var unmaskedseqs := FindUnmaskedSeq(flank.sequence, minsize);
      added := CutContigs(flank, unmaskedseqs);
    } else {
      added := [];
    }
  }

  /** The loop of populateDeduplicatedContigs over the tallied contig names. */
  method DedupRows(tally: Tally, unmasked: seq<SeqRow>, minsize: int, expdup: int) returns (rows: seq<SeqRow>)
    ensures rows == DedupFor(tally.order, tally.info, |tally.order|, unmasked, minsize, expdup)
  {
    rows := [];
    for c := 0 to |tally.order|
      invariant rows == DedupFor(tally.order, tally.info, c, unmasked, minsize, expdup)
    {
      var added := ReconcileNamed(tally.order[c], tally.info, unmasked, minsize, expdup);
      DedupForStep(tally.order, tally.info, c, unmasked, minsize, expdup);
      rows := rows + added;
    }
  }

  /** One more contig name adds its reconciled rows at the end. */
  lemma DedupForStep(order: seq<string>, info: map<string, Matches>, c: nat, unmasked: seq<SeqRow>, minsize: int, expdup: int)
    requires c < |order|
    ensures DedupFor(order, info, c + 1, unmasked, minsize, expdup)
      == DedupFor(order, info, c, unmasked, minsize, expdup) + DedupOfContig(order[c], info, unmasked, minsize, expdup)
  {
  }

  /** One step of that loop: the row the contig name refers to, reconciled. */
  method ReconcileNamed(contig: string, info: map<string, Matches>, unmasked: seq<SeqRow>, minsize: int, expdup: int)
    returns (rows: seq<SeqRow>)
    ensures rows == DedupOfContig(contig, info, unmasked, minsize, expdup)
  {
    var found := LookupUnmasked(unmasked, contig);
    if contig in info && found != [] {
      rows := ReconcileContig(found[0], info[contig], minsize, expdup);
    } else {
      rows := [];
    }
  }

  /** The rows populateUnmaskedContigs and populateDeduplicatedContigs insert
      for one row and the segments found in its (masked) sequence. */
  method CutContigs(row: SeqRow, segments: seq<Segment>) returns (rows: seq<SeqRow>)
    ensures rows == ContigRows(row, segments)
  {
    rows := [];
    for k := 0 to |segments|
      invariant rows == ContigRows(row, segments[..k])
    {
      var startpos := segments[k].start;
      var endpos := segments[k].end;
      rows := rows + [SeqRow(row.annotation, Slice(row.sequence, startpos, endpos), startpos + row.start, endpos + row.start)];
    }
    assert segments[..|segments|] == segments;
  }

  /** The decision for one contig row and the dictionary entry of its name. */
  method ReconcileContig(row: SeqRow, matches: Matches, minsize: int, expdup: int) returns (rows: seq<SeqRow>)
    ensures rows == DedupRowsFor(row, matches, minsize, expdup)
  {
    if matches.large == expdup && |matches.ranges| == 0 {
      rows := [row];
    } else if matches.large > expdup {
      rows := [];
    } else {
      var maskedSequence := MaskRanges(row.sequence, matches.ranges);
      var unmaskedseqs := FindUnmaskedSeq(maskedSequence, minsize);
      rows := CutContigs(row, unmaskedseqs);
    }
  }
}
