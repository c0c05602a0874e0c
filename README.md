# FURdb record logic in Dafny

FURdb builds a database of the unique flanking regions ("FURs") around the
annotations of a genome. Its pipeline works as follows:

- It reads annotation files (BED, UCSC RepeatMasker, DFAM, GTF).
- It cuts the flanking windows of every annotation from a FASTA genome.
- It splits those windows at their soft-masked (lowercase) stretches into
  unmasked contigs.
- It drops or re-cuts the contigs that a BLAT self-alignment (PSL file) shows
  to be duplicated.
- It exports the remaining contigs for alignment, and counts the SAM
  alignments against them per annotation and per end (sense or antisense).
- An inspection module reports overlapping flanking regions and per-end
  contig statistics.

This project models the record-level logic of that pipeline. Each SQL table is
a sequence of rows, and an INSERT is an append. A file is a `TextFile.PyFile`:
a sequence of lines with a cursor that `readline`, `readlines`, `seek` and
`tell` move. A Python exception (`IndexError`, `ValueError`) is an error value
of `Wrappers.Result`.

Modules, following the source files:

- `lib/libFURdatabase.py`:
  - `UnmaskedSeq` (findUnmaskedSeq);
  - `GenomeIndex` (indexFASTA, loadChr);
  - `Contigs` (flanking windows and contig rows);
  - `Dedup` (dedupFile);
  - `Reconcile` (the deduplication decision and masking);
  - `FurDatabase` (the `database` population steps).
- `lib/libFURshared.py`:
  - `FurShared` (exportFASTAEntry, columnnum, detectFileType);
  - `Annotations` (the Annotation class).
- `lib/libFURanalysis.py`:
  - `AnalysisStrand` (swapStrand, isSense, annotationData);
  - `AnalysisExport` (exportEnd and the selection of exportSequencesAdv);
  - `AnalysisCounts` (getRegionSizes, processAlignments, the processlist of
    createAnnoDataObjs).
- `lib/libFURinspect.py`: `FurInspect` (overlappingAnnos, regionCount).
- Support modules:
  - `Wrappers` (Option, Result);
  - `PyStr` (the Python string operations the source uses: `strip`, `split`,
    ASCII `isupper`/`islower`/`lower`, slicing with negative indices, `int()`);
  - `TextFile`.

The loops of the source are `method`s with loop invariants. Each is proved
equal to a specification function, and the lemmas beside that function state
what the source promises. The objects whose attributes the source assigns are
classes: `Annotation`, `annotationData`, `dedupFile`, `alignfile` and the
database.

## Behaviour of the code as written

The model follows the code. These are the places where the code does
something other than its comments or documentation describe. Each is stated
as a lemma:

- findUnmaskedSeq reports a run only when a lowercase character closes it. An
  uppercase run that reaches the end of the text is dropped.
  - `UnmaskedSeq.TrailingRunDropped` and `UnmaskedSeq.TrailingRunExample`.
  - `Reconcile.ResegmentWithoutRanges` shows that this also loses a whole
    contig in the deduplication step.
- A clipped downstream window with a non-zero offset stores the end
  `alignEnd + len(seq)`, not `start + len(seq)` (`Contigs.ClippedWindowWithOffset`).
- Near the start of a chromosome the upstream slice has a negative start, and
  Python counts a negative slice index from the end of the chromosome.
  - When the window ends at or after 0 and the chromosome is at least size
    long, the slice is empty, so no row is stored rather than a clipped one
    (`Contigs.UpstreamNearStartEmpty`).
  - When the window also ends before 0 (alignStart < offset), a whole window
    is cut from the end of the chromosome and stored at negative coordinates
    (`Contigs.UpstreamWrapsAround`, `Contigs.UpstreamWrapExample`).
  - On a chromosome shorter than size the start can be clamped to 0 instead,
    and a clipped window is stored (`Contigs.UpstreamShortChromosome`).
- loadChr has no fallback for a chromosome missing from the index: it returns
  "". For the name "" it stops at the first header it reads
  (`GenomeIndex.LoadIndexedChromosome` requires a non-empty name).
- The `.gff` test in detectFileType compares one character with "GFF", so it
  never holds (`FurShared.GffNotDetected`).
- columnnum does not advance its counter on a match. A repeated name therefore
  gives an index that is off by the number of earlier matches
  (`FurShared.ColumnRepeatedExample`).
- A masking range with its start after its end duplicates text instead of
  masking it (`Reconcile.ReversedRangeExample`).
- In overlappingAnnos the fourth test repeats the third. The second region of
  an annotation is therefore never compared with the second region of the
  query (`FurInspect.SecondRegionsNotCompared`).
- All overlap tests are strict, so regions that only touch do not overlap
  (`FurInspect.TouchingRegionsNotOverlap`).
- regionCount and isSense disagree for a contig starting exactly at the start
  of a "-" strand annotation. They also disagree on annotations of any other
  strand: regionCount calls every such contig sense, while isSense calls none
  of them sense (`FurInspect.AntisenseAgainstIsSense`,
  `FurInspect.NoStrandAllSense`).
- The closest rule never picks a contig 10^10 or more bases away
  (`AnalysisExport.NearestIsFirstNearest`).
- With `equal` set and `fixed` 0, the `end` option is ignored. The
  excluded-annotation branch inside the pairing loop cannot be taken
  (`AnalysisExport.ExportPairs` ensures `!excluded`).

## Model

| member | source | states |
|---|---|---|
| UnmaskedSeq.FindUnmaskedSeq | lib/libFURdatabase.py:396-414 | the list returned is the segment list `Segments(sequence, minsize)` of the one-pass scan |
| UnmaskedSeq.SegmentsExact | lib/libFURdatabase.py:396-414 | (a, b) is reported iff [a, b) opens at an uppercase character met while no run is open, holds no lowercase character, is closed by the lowercase character at b, and is at least minsize long |
| UnmaskedSeq.SegmentsOrdered | lib/libFURdatabase.py:401-413 | segments are strictly increasing and non-overlapping, with 0 <= start < end < len |
| UnmaskedSeq.SegmentsContents | lib/libFURdatabase.py:403-409 | every segment is at least minsize long, starts with an uppercase character, has no lowercase character inside and a lowercase character at its end |
| UnmaskedSeq.NoLowercaseNoSegments | lib/libFURdatabase.py:402-413 | a text with no lowercase character yields no segment |
| UnmaskedSeq.TrailingRunDropped | lib/libFURdatabase.py:405-412 | every segment ends at or before the last lowercase character, so a trailing uppercase run is dropped |
| UnmaskedSeq.TrailingRunExample | lib/libFURdatabase.py:402-413 | of two five-letter uppercase runs, only the one a lowercase run closes is reported |
| GenomeIndex.IndexFasta | lib/libFURdatabase.py:421-433 | reads to the end of the file; the index maps each header name (after '>', stripped) to the offset of its header line, a later header of the same name replacing an earlier one |
| GenomeIndex.HeadersFromSound | lib/libFURdatabase.py:427-431 | every index entry is the offset of a header line of that name, with no later header of that name |
| GenomeIndex.HeadersFromComplete | lib/libFURdatabase.py:427-431 | every header line is indexed, at its own offset or at that of a later header of the same name |
| GenomeIndex.HeadersFromStartsLine | lib/libFURdatabase.py:430 | every indexed offset is the start of a line, so seek lands on a header |
| GenomeIndex.LoadChr | lib/libFURdatabase.py:438-453 | "" with the cursor unmoved for a name not in the index; otherwise the read loop from the indexed line, leaving the cursor past the header that stops it |
| GenomeIndex.LoadOwnRecord | lib/libFURdatabase.py:445-452 | inside the wanted record the loop gathers the stripped lines up to the next header or the end of the file |
| GenomeIndex.LoadIndexedChromosome | lib/libFURdatabase.py:421-453 | with the index indexFASTA builds, loading a non-empty name gives the joined stripped body lines of the last record of that name |
| Contigs.Downstream | lib/libFURdatabase.py:197-205 | a stored following window is non-empty, starts at alignEnd + offset and holds at most size characters |
| Contigs.Upstream | lib/libFURdatabase.py:208-216 | a stored preceding window is non-empty, ends at alignStart - offset and holds at most size characters |
| Contigs.WindowsNoOffset | lib/libFURdatabase.py:197-216 | with offset 0, end - start == len(seq) for both windows, clipped or not |
| Contigs.DownstreamInside | lib/libFURdatabase.py:197-205 | a following window inside the chromosome is stored whole at [alignEnd + offset, alignEnd + offset + size) |
| Contigs.UpstreamInside | lib/libFURdatabase.py:208-216 | a preceding window inside the chromosome is stored whole at [alignStart - offset - size, alignStart - offset) |
| Contigs.DownstreamClipped | lib/libFURdatabase.py:197-202 | a following window starting inside the chromosome holds the characters from its start up to size of them or the chromosome end |
| Contigs.ClippedWindowWithOffset | lib/libFURdatabase.py:201-202 | a clipped window with an offset stores an end that is not start + len(seq) |
| Contigs.UpstreamNearStartEmpty | lib/libFURdatabase.py:208-216 | when 0 <= alignStart - offset < size <= len(chr), the preceding window would start before position 0; the slice is empty and nothing is stored |
| Contigs.UpstreamWrapsAround | lib/libFURdatabase.py:208-216 | when alignStart - offset = e < 0 and size - e <= len(chr), the stored window is chr[len(chr) + e - size : len(chr) + e] at [e - size, e) |
| Contigs.UpstreamWrapExample | lib/libFURdatabase.py:208-216 | an annotation at 2 with offset 5 and size 5 on "ABCDEFGHIJKLMNOPQRST" stores "MNOPQ" at [-8, -3) |
| Contigs.UpstreamShortChromosome | lib/libFURdatabase.py:208-216 | when 0 < alignStart - offset = e <= len(chr) and len(chr) + e <= size, the stored window is chr[:e] at [alignStart - e, e) |
| Contigs.ContigRows | lib/libFURdatabase.py:233-238 | one row per segment, each with the source row's annotation |
| Contigs.UnmaskedRowShape | lib/libFURdatabase.py:230-238 | each UnmaskedContigs row holds sequence[s:e] at flank.start + s .. flank.start + e, so end - start == len(sequence) >= minsize, with no lowercase character |
| Contigs.EmptyFlankNoRows | lib/libFURdatabase.py:231 | a flanking row with an empty sequence gives no contig row |
| Dedup.FirstDataLine | lib/libFURdatabase.py:347-352 | the first line whose first tab field is all digits; no earlier line qualifies |
| Dedup.DedupFile.SetDataStart | lib/libFURdatabase.py:345-353 | dataStartPos is the offset of the first data line |
| Dedup.DedupFile.ProcessFile | lib/libFURdatabase.py:354-385 | the result is the tally of the records of every line from the data start, or the first line's exception |
| Dedup.ClassifyLineFields | lib/libFURdatabase.py:359-370 | a record is large iff matched + minsize > querySize; a partial record carries columns 11 and 12 as its range; both are filed under column 9 |
| Dedup.ClassifyLineSkipped | lib/libFURdatabase.py:360-362 | a line contributes nothing iff ignorealt is set and its stripped target name ends in "_alt" |
| Dedup.Tabulate | lib/libFURdatabase.py:357-385 | the processFile loop computes the fold `Process` of the line records |
| Dedup.ProcessFails | lib/libFURdatabase.py:358-385 | processFile fails iff some line raises |
| Dedup.ProcessFirstError | lib/libFURdatabase.py:358-385 | the first line that raises decides the error |
| Dedup.ProcessOrdered | lib/libFURdatabase.py:372-377 | each query name is a key once, listed in order of first appearance |
| Dedup.ProcessKeys | lib/libFURdatabase.py:372-384 | the keys are exactly the query names of the large and partial records |
| Dedup.ProcessCounts | lib/libFURdatabase.py:364-384 | each value is [number of large records, ranges of the partial records in file order] |
| Reconcile.MaskRanges | lib/libFURdatabase.py:275-278 | popping and masking every range gives `MaskFromEnd` of the sequence |
| Reconcile.MaskOncePointwise | lib/libFURdatabase.py:278 | an in-bounds masking step keeps the length and lowercases exactly [a, b) |
| Reconcile.MaskFromEndPointwise | lib/libFURdatabase.py:276-278 | with in-bounds ranges, masking keeps the length and lowercases exactly the covered positions |
| Reconcile.MaskOrderIrrelevant | lib/libFURdatabase.py:276-278 | masking does not depend on the order of the ranges or on repeats |
| Reconcile.ReversedRangeExample | lib/libFURdatabase.py:278 | a range with start > end duplicates text |
| Reconcile.DecisionCases | lib/libFURdatabase.py:260-287 | exactly one copy when large == expdup and there are no ranges; nothing when large > expdup; otherwise the contig re-cut at the runs of the masked sequence |
| Reconcile.ResegmentedRowShape | lib/libFURdatabase.py:273-287 | a re-cut row holds the original sequence between the run ends, at start + s .. start + e, at least minsize long, with no lowercase character, and uncased wherever a range covers it |
| Reconcile.ResegmentWithoutRanges | lib/libFURdatabase.py:270-287 | a partly duplicated contig with no range to mask and no lowercase character gives no row |
| FurDatabase.DistinctChrsExact | lib/libFURdatabase.py:177-180 | every chromosome of the annotations is listed, once |
| FurDatabase.LookupUnmasked | lib/libFURdatabase.py:262-263 | a query name selects at most one UnmaskedContigs row; a name that is not an integer selects none |
| FurDatabase.LookupById | lib/libFURdatabase.py:262 | the exported name str(id) of a row selects that row |
| FurDatabase.FlankRowsShape | lib/libFURdatabase.py:195-217 | at most two rows per annotation, each with its id and a non-empty sequence of at most size characters, whose span equals its length when offset is 0 |
| FurDatabase.ChrFlanksShape | lib/libFURdatabase.py:190-217 | every flanking row of a chromosome belongs to an annotation on it and has the shape above |
| FurDatabase.DedupKeepsWholeRow | lib/libFURdatabase.py:260-265 | a contig that found only its expected copies is copied over unchanged |
| FurDatabase.FlankingRows | lib/libFURdatabase.py:182-217 | the rows added for the chromosomes, skipping one that loads as "" |
| FurDatabase.FlanksOfChr | lib/libFURdatabase.py:190-217 | for each annotation on the chromosome, the following window row and then the preceding one |
| FurDatabase.UnmaskedRows | lib/libFURdatabase.py:230-239 | the UnmaskedContigs rows of each flanking row, in order |
| FurDatabase.CutContigs | lib/libFURdatabase.py:233-238 | the rows inserted for the segments of one row |
| FurDatabase.ReconcileContig | lib/libFURdatabase.py:260-287 | the rows the decision gives for one contig |
| FurDatabase.ReconcileNamed | lib/libFURdatabase.py:256-274 | no row for a name no UnmaskedContigs id matches; otherwise that row reconciled |
| FurDatabase.DedupRows | lib/libFURdatabase.py:256-287 | the rows for each tallied contig name, in dictionary order |
| FurDatabase.Database.PopulateFlankingRegions | lib/libFURdatabase.py:167-217 | appends the windows of every annotation on every chromosome the genome holds, records size and offset, and changes no other table |
| FurDatabase.Database.PopulateUnmaskedContigs | lib/libFURdatabase.py:219-239 | appends the contig rows of every flanking row, records minsize, and changes no other table |
| FurDatabase.Database.PopulateDeduplicatedContigs | lib/libFURdatabase.py:248-287 | on a PSL error adds nothing and returns it; otherwise appends the rows of every tallied contig; no other table changes |
| FurShared.ExportFastaEntry | lib/libFURshared.py:5-16 | writes the header line and then the body lines of `FastaEntry` |
| FurShared.BodyLinesShape | lib/libFURshared.py:7-16 | there are ceil(len / 80) body lines, each one to 80 characters followed by a newline |
| FurShared.BodyLinesUnwrap | lib/libFURshared.py:11-16 | the body lines without their newlines join up to the sequence |
| FurShared.ColumnNum | lib/libFURshared.py:24-33 | the loop computes `Column` of the header |
| FurShared.ColumnAbsent | lib/libFURshared.py:24-33 | the default when no stripped field equals the stripped name |
| FurShared.ColumnUnique | lib/libFURshared.py:24-33 | the index k of the one field that matches |
| FurShared.ColumnRepeatedExample | lib/libFURshared.py:28-32 | a repeated name gives its last index minus the earlier matches |
| FurShared.DetectFileType | lib/libFURshared.py:37-57 | IndexError exactly when the first line has no word or the name is too short for `name[-3]`; any type found is BED, GTF, DFAM or UCSC |
| FurShared.NameDecidesFirst | lib/libFURshared.py:43-44 | a name ending in bed (any case) is BED whatever the first line |
| FurShared.GffNotDetected | lib/libFURshared.py:45 | a .gff name is never typed GTF |
| FurShared.FirstLineDecides | lib/libFURshared.py:51-55 | with no known suffix, BIN/#BIN means UCSC, SEQUENCE/#SEQUENCE means DFAM, anything else None |
| Annotations.Annotation.ParseBed | lib/libFURshared.py:81-94 | the attributes are those `BedFields` reads, or the exception |
| Annotations.Annotation.ParseUcsc | lib/libFURshared.py:95-116 | the attributes are those `UcscFields` reads by header names, or the exception; `Annotations.UcscColumns` states what they are |
| Annotations.NamedOnceColumn | lib/libFURshared.py:24-33 | columnnum finds a column that the header names once at its position |
| Annotations.UcscHeaderColumns | lib/libFURshared.py:24-33 | a header that names each UCSC column once puts every column at its position |
| Annotations.UcscRepColumns | lib/libFURshared.py:97-103 | the repeat columns read parse exactly when repLeft, repStart and repEnd hold integers; on "-" they are (repLeft, repEnd, repStart), otherwise (repStart, repEnd, repLeft) |
| Annotations.UcscGenoColumns | lib/libFURshared.py:104-116 | the genomic columns read parse exactly when genoEnd, genoLeft, swScore and genoStart hold integers and repName and genoName exist; the values are those columns |
| Annotations.UcscColumns | lib/libFURshared.py:95-116 | with a header naming each column once, a line parses iff it has every column and the numeric ones are integers; matchStart is repLeft on "-" and repStart otherwise, repSize is repEnd - repStart on "-" and repEnd - repLeft otherwise, matchEnd is repEnd, chrSize is genoEnd - genoLeft, the alignment is genoStart..genoEnd, score is swScore, and the names and strand are stripped |
| Annotations.RmskHeader | lib/libFURshared.py:95-116 | the header of the UCSC rmsk table names every column parseUcsc reads exactly once (strand 9, repLeft 15, repStart 13, repEnd 14, genoStart 6, genoEnd 7, genoLeft 8, genoName 5, repName 10, swScore 1), so `UcscColumns` applies to its lines |
| Annotations.UcscLineColumns | lib/libFURshared.py:95-116 | the same, for any header in which columnnum finds each column at the layout's position |
| Annotations.UcscShortLine | lib/libFURshared.py:95-97 | a line that stops before the strand column raises IndexError |
| Annotations.Annotation.ParseDfam | lib/libFURshared.py:117-137 | the attributes are those `DfamFields` reads, or the exception |
| Annotations.Annotation.ParseGtf | lib/libFURshared.py:138-165 | the attributes are those `GtfFields` reads, or the exception |
| Annotations.NewAnnotation | lib/libFURshared.py:64-80 | dispatches on the type; an unsupported type sets error to "Type unsupported " + type and parses nothing; a parser exception is returned |
| Annotations.BedRoundTrip | lib/libFURshared.py:81-94 | a BED line written from chromosome, start, end, name, score and strand parses back to them, with matchStart = matchEnd = NullInt |
| Annotations.BedShortLine | lib/libFURshared.py:82-91 | a BED line of fewer than six columns raises |
| Annotations.DfamRest | lib/libFURshared.py:126-137 | the alignment start and end are the two texts chosen by strand, as integers |
| Annotations.DfamStrandColumns | lib/libFURshared.py:117-137 | on "-" alignStart is read from the alignment end column and alignEnd from the alignment start column; otherwise directly |
| Annotations.DfamColumns53 | lib/libFURshared.py:120-134 | for "+" or "-" lines the 5'-3' start is always the alignment start column, and the 5'-3' end the alignment end column |
| Annotations.GtfNullScore | lib/libFURshared.py:156-157 | a "." score becomes NullInt |
| Annotations.RepIdOfFirstAttribute | lib/libFURshared.py:144-149 | the repID of `key value;...` or `key=value;...` is value, with its quotes removed |
| Annotations.Align53Swap | lib/libFURshared.py:168-179 | getAlignStart53/getAlignEnd53 swap the alignment ends on "-" only |
| Annotations.ChrLeft | lib/libFURshared.py:180-185 | -(chrSize - alignEnd) when chrSize is known, NullInt otherwise |
| Annotations.Match53Swap | lib/libFURshared.py:186-203 | NullInt for BED and GTF; otherwise getMatchLeft53 and getMatchStart53 trade values when the strand turns to "-" |
| AnalysisStrand.SwapStrand | lib/libFURanalysis.py:497-523 | the result is the reverse of the base-wise complement |
| AnalysisStrand.ReverseComplementPointwise | lib/libFURanalysis.py:497-523 | the length is kept, and character i is the complement of character len-1-i |
| AnalysisStrand.ComplementInvolution | lib/libFURanalysis.py:503-520 | a<->t and g<->c with case kept; every other character unchanged; complementing twice is the identity |
| AnalysisStrand.ReverseComplementInvolution | lib/libFURanalysis.py:497-523 | swapStrand undoes itself |
| AnalysisStrand.IsSense | lib/libFURanalysis.py:485-492 | the only value that is not None is 1 |
| AnalysisStrand.IsSenseCases | lib/libFURanalysis.py:485-492 | 1 iff ("+" and constart > annostart) or ("-" and constart < annostart); None at the start and on other strands |
| AnalysisStrand.FlankingPositions | lib/libFURanalysis.py:571-584 | both regions are flankingsize wide |
| AnalysisStrand.PositionsAreWindows | lib/libFURanalysis.py:571-584 | inside the chromosome, the sense region is the stored following window on "+" and the preceding window otherwise, and the antisense region the other one |
| AnalysisStrand.AnnotationData.constructor | lib/libFURanalysis.py:530-570 | the id, alignment and strand are kept and the four positions start at 0 |
| AnalysisStrand.AnnotationData.CalcFlankingPositions | lib/libFURanalysis.py:571-584 | the four positions become `FlankingPositions` of the strand, alignment, size and offset |
| AnalysisExport.Oriented | lib/libFURanalysis.py:52-55 | the (possibly reverse complemented) sequence keeps its length |
| AnalysisExport.ExportItem | lib/libFURanalysis.py:51-62 | the lines written for one contig, and whether it was exported |
| AnalysisExport.ExportEnd | lib/libFURanalysis.py:46-63 | writes the FASTA entries of `Exported` and returns their number |
| AnalysisExport.ExportedCount | lib/libFURanalysis.py:46-63 | the number of contigs exported is the number at least fixed long |
| AnalysisExport.ExportedEntry | lib/libFURanalysis.py:46-63 | every entry written is the id and the (oriented, cut to fixed when fixed > 0) sequence of one of the listed contigs at least fixed long |
| AnalysisExport.ExportedContents | lib/libFURanalysis.py:46-63 | the count is the number of contigs at least fixed long; each entry is the id with the length-fixed prefix (fixed > 0) or the whole oriented sequence of such a contig |
| AnalysisExport.ExportedInOrder | lib/libFURanalysis.py:46-63 | the k-th entry written is that of the k-th contig at least fixed long, in list order, and there is one entry per such contig |
| AnalysisExport.ExportedFixedLength | lib/libFURanalysis.py:58-59 | with fixed > 0 every sequence written is exactly fixed long |
| AnalysisExport.ComplementFlagCases | lib/libFURanalysis.py:94-110 | S with "-" or A with "+" complement both ends; B complements antisense on "+" and sense on "-"; anything else neither |
| AnalysisExport.Longest | lib/libFURanalysis.py:114-116 | the first contig of maximal length, as Python's max |
| AnalysisExport.Closest | lib/libFURanalysis.py:120-135 | the closest loop computes `Nearest` |
| AnalysisExport.NearestIsFirstNearest | lib/libFURanalysis.py:118-137 | at most one contig; none iff every distance is at least 10^10; otherwise the first of minimal distance |
| AnalysisExport.KeepLongEnough | lib/libFURanalysis.py:144-151 | the loop computes `LongEnough` |
| AnalysisExport.LongEnoughContents | lib/libFURanalysis.py:144-153 | exactly the contigs at least fixed long are kept, each as often as before |
| AnalysisExport.SortByLength | lib/libFURanalysis.py:155-156 | longest first, a permutation of the input |
| AnalysisExport.EqualEnds | lib/libFURanalysis.py:140-165 | both ends come out with as many contigs |
| AnalysisExport.Selected | lib/libFURanalysis.py:112-165 | with equal set both ends hold as many contigs |
| AnalysisExport.SelectContigs | lib/libFURanalysis.py:112-165 | the selection loops compute `Selected` |
| AnalysisExport.LargestRule | lib/libFURanalysis.py:112-116 | largest takes precedence over closest; at most one contig, none iff none given, of maximal length |
| AnalysisExport.ClosestRule | lib/libFURanalysis.py:118-137 | without largest, closest keeps the first nearest contig, or none |
| AnalysisExport.LongestEnough | lib/libFURanalysis.py:143-160 | the kept prefix is sorted longest first, each contig at least fixed long and drawn from the input |
| AnalysisExport.EqualRuleSeveral | lib/libFURanalysis.py:141-160 | with several contigs on an end, both ends become the min-length prefixes of their long-enough contigs, sorted by length |
| AnalysisExport.EqualRuleFew | lib/libFURanalysis.py:162-165 | otherwise both ends are emptied when either is empty |
| AnalysisExport.PairBothExported | lib/libFURanalysis.py:177-179 | cut to the shorter length, both contigs of a pair are exported |
| AnalysisExport.ExportPair | lib/libFURanalysis.py:174-179 | one round writes `PairOutput` and both counts are 1 |
| AnalysisExport.ExportPairs | lib/libFURanalysis.py:173-182 | the loop writes `PairsOutput`, and never excludes the annotation |
| AnalysisExport.PairsOutputEmpty | lib/libFURanalysis.py:169-182 | nothing is written iff there is no pair |
| AnalysisExport.ExportEnds | lib/libFURanalysis.py:183-194 | the sense end unless end is "A", the antisense end unless end is "S"; excluded iff nothing is written |
| AnalysisExport.ExportAnnotation | lib/libFURanalysis.py:88-194 | writes `AnnotationOutput` for the annotation; excluded iff nothing is written |
| AnalysisCounts.GetRegionSizes | lib/libFURanalysis.py:236-257 | the two dictionaries are `SizesAfter` of the rows, split by sense membership |
| AnalysisCounts.SizesAreTotals | lib/libFURanalysis.py:242-256 | an annotation has an entry on an end iff it has a contig there, and the entry is [sum of lengths, number of contigs] |
| AnalysisCounts.EndsSplitContigs | lib/libFURanalysis.py:243-256 | every contig of an annotation counts on exactly one end |
| AnalysisCounts.CountLine | lib/libFURanalysis.py:328-335 | one line of the loop is `Step`: parse, and count when quality > threshold |
| AnalysisCounts.CountAlignments | lib/libFURanalysis.py:325-335 | reads to the end of the file and returns `CountAfter` of the lines read, or the first exception |
| AnalysisCounts.FirstErrorStays | lib/libFURanalysis.py:326-335 | an exception stops the count for good |
| AnalysisCounts.CountConsistent | lib/libFURanalysis.py:330-334 | counting keeps each key listed once and the total equal to the sum |
| AnalysisCounts.CountsTotal | lib/libFURanalysis.py:325-337 | the total is the sum of the per-contig counts and the number of alignments above the threshold |
| AnalysisCounts.CountsPerContig | lib/libFURanalysis.py:329-334 | each contig's count is its number of alignments above the threshold, and a contig with none has no key |
| AnalysisCounts.ProcessList | lib/libFURanalysis.py:343-355 | every annotation with incAll, otherwise the union of the sense and antisense keys |
| AnalysisCounts.UnionContents | lib/libFURanalysis.py:350-355 | the union starts with the sense keys, holds exactly the keys of either, and lists each once |
| AnalysisCounts.AlignFile.constructor | lib/libFURanalysis.py:280-293 | the file, threshold and data start are kept, and the counts start empty |
| AnalysisCounts.AlignFile.ProcessAlignments | lib/libFURanalysis.py:319-337 | on success the per-contig counts and total are those of every line from the data start; on an exception nothing changes |
| AnalysisCounts.AlignFile.CreateProcessList | lib/libFURanalysis.py:343-355 | sets processlist as ProcessList does and changes nothing else |
| FurInspect.RegionsOf | lib/libFURinspect.py:76-83 | both query regions are size wide, the first ending at alignStart - offset and the second starting at alignEnd + offset |
| FurInspect.RegionsAreFlanks | lib/libFURinspect.py:76-83 | on "+" the first region is annotationData's antisense region and the second its sense region; on any other strand the reverse |
| FurInspect.PairTag | lib/libFURinspect.py:86-112 | the tag is 1 or 2; none for another chromosome or when Start1 > QEnd2 or End2 < QStart1 |
| FurInspect.PairTagCases | lib/libFURinspect.py:87-112 | the tag as the strict comparisons decide it, the duplicated fourth test adding nothing |
| FurInspect.SecondRegionsNotCompared | lib/libFURinspect.py:107-112 | an overlap of both second regions alone gives no entry |
| FurInspect.TouchingRegionsNotOverlap | lib/libFURinspect.py:100-111 | a region starting exactly where a query region ends is no overlap |
| FurInspect.OverlapsOf | lib/libFURinspect.py:85-112 | at most one entry per other annotation |
| FurInspect.OverlapsOfEntries | lib/libFURinspect.py:85-112 | every entry names another annotation on the same chromosome, with its tag |
| FurInspect.OverlapsOfComplete | lib/libFURinspect.py:85-112 | every other annotation with a tag has its entry |
| FurInspect.QueryOverlaps | lib/libFURinspect.py:84-113 | the inner loop computes `OverlapsOf` |
| FurInspect.OverlappingAnnos | lib/libFURinspect.py:65-114 | the entries of every query annotation, in order |
| FurInspect.CountRegions | lib/libFURinspect.py:124-142 | the inner loop computes `RegionAfter` |
| FurInspect.RegionCount | lib/libFURinspect.py:115-144 | regionInfo is `RegionMap` of the annotations |
| FurInspect.RegionAfterCount | lib/libFURinspect.py:129-142 | each count is the number of the annotation's contigs at that end |
| FurInspect.RegionAfterLargest | lib/libFURinspect.py:134-142 | each largest is the largest end - start at that end, floored at 0 |
| FurInspect.RegionAfterTotal | lib/libFURinspect.py:124-143 | senseCount + antiCount is the annotation's number of contigs |
| FurInspect.RegionMapLookup | lib/libFURinspect.py:143 | with distinct ids each annotation's entry is its own counts |
| FurInspect.AntisenseAgainstIsSense | lib/libFURinspect.py:131-142 | on "+" and "-" the antisense test is the negation of isSense, except for a "-" contig starting at alignStart |
| FurInspect.NoStrandAllSense | lib/libFURinspect.py:131-142 | on any other strand every contig is sense for regionCount and none for isSense |

## Left out

- SQL plumbing. This covers the connection, the schema, query strings and
  commits, the info table updates, `deleteTableRows` and `tablesizes`. Tables
  are sequences of rows. A row id is its position plus one, because the
  tables are assumed never to be cleared between runs.
- Verbosity printing, the GUI, the command-line programs and the install
  script.
- Floating point: calcRPKM, the RPKM fields and the report writers. The DFAM
  bit score is read as a decimal number with an optional fractional part,
  truncated, in place of `int(float(...))`. Exponents, inf and nan are not
  read.
- A file is a sequence of non-empty lines. A seek to an offset inside a line
  is not modelled: every seek in the core goes to an offset that tell produced
  at a line start.
- Characters are ASCII only. `isupper`, `islower` and `lower` treat non-ASCII
  letters as uncased. `int()` accepts optional whitespace, a sign and digits,
  but not underscores.
- `ignorealt` is a bool.
- Dedup.DedupFile.constructor and Dedup.DedupFile.SetDataStart: both require
  that the file holds a line whose first field is all digits. The source loops
  for ever on such a file.
- The loading of a table from an annotation file (populateAnnotations) is not
  modelled. Only the Annotation parser it calls is.
- exportStoredSequences is left out: it is one exportFASTAEntry per row.
- The outer annotations loop of exportSequencesAdv is left out. The contig
  lists are parameters. Left out with it are the `SELECT DISTINCT annotation`
  query, the partition of rows into sense and antisense by senseContigIDs, and
  the `int()` conversions of database values.
- calcContigEnds is not modelled. senseContigIDs and the sense/antisense key
  lists of the alignments are parameters.
- countAnnoAligns is left out, because its result depends on a cursor state
  left over from earlier code.
- fileDataStart is left out, including its non-SAM branch. The data start
  offset of the alignment file is a parameter.
- Only the SAM alignment type is modelled.
- AnalysisExport.ExportAnnotation requires a non-empty strand. For an empty
  strand the source raises IndexError at `strand[0]`, and that error path is
  not modelled.
- FurDatabase.LookupUnmasked: a query name that is not an integer selects no
  row. In the source such a name makes the `WHERE id=` query invalid SQL or a
  comparison with another column, and the error would abort
  populateDeduplicatedContigs. That error path is not modelled. The names come
  from the alignment file of the exported contigs, whose FASTA names are
  str(id) (`FurDatabase.LookupById`).
- AnalysisExport.ExportPairs requires both lists to have the same length,
  which the equal rule guarantees.
- The order of the keys of regionSenseSize and regionAntiSize is not modelled,
  only their contents.
- The rest of annotationData (matchSize, and the region-size and match-count
  setters) and createAnnoDataObjs beyond its processlist are not part of this
  model.
- The unfinished classes `flankingobj`, `sequenceobj` and `genomeobj` are
  not part of this model.
