/** The per-annotation aggregation of libFURanalysis: the region sizes
    getRegionSizes computes from the contig table, the alignment counting
    loop of alignfile.processAlignments over a SAM file, and the list of
    annotations createAnnoDataObjs goes on to process. */
module AnalysisCounts {
  import opened Wrappers
  import opened PyStr
  import opened TextFile
  import opened Annotations

  // --------------------------------------------------------- region sizes

  /** A row of the contig table as getRegionSizes selects it. */
  datatype RegionRow = RegionRow(id: int, annotation: int, sequence: string)

  /** `[size, contigs]`: the bases and the number of contigs of one end. */
  datatype Size = Size(bases: int, contigs: int)

  /** The row's contig is listed as a sense contig. */
  predicate OnEnd(r: RegionRow, senseIds: seq<int>, sense: bool)
  {
    (r.id in senseIds) == sense
  }

  /** One end's dictionary after the first n rows. */
  function SizesAfter(rows: seq<RegionRow>, n: nat, senseIds: seq<int>, sense: bool): map<int, Size>
    requires n <= |rows|
  {
    if n == 0 then map[]
    else
      var m := SizesAfter(rows, n - 1, senseIds, sense);
      var r := rows[n - 1];
      if !OnEnd(r, senseIds, sense) then m
      else if r.annotation in m then
        m[r.annotation := Size(m[r.annotation].bases + |r.sequence|, m[r.annotation].contigs + 1)]
      else m[r.annotation := Size(|r.sequence|, 1)]
  }

  /** getRegionSizes */
  method GetRegionSizes(rows: seq<RegionRow>, senseContigIDs: seq<int>)
    returns (regionSenseSize: map<int, Size>, regionAntiSize: map<int, Size>)
    ensures regionSenseSize == SizesAfter(rows, |rows|, senseContigIDs, true)
    ensures regionAntiSize == SizesAfter(rows, |rows|, senseContigIDs, false)
  {
    regionSenseSize, regionAntiSize := map[], map[];
    for k := 0 to |rows|
      invariant regionSenseSize == SizesAfter(rows, k, senseContigIDs, true)
      invariant regionAntiSize == SizesAfter(rows, k, senseContigIDs, false)
    {
      var row := rows[k];
      if row.id in senseContigIDs {
        if row.annotation in regionSenseSize {
          var size := regionSenseSize[row.annotation].bases + |row.sequence|;
          var contigs := regionSenseSize[row.annotation].contigs + 1;
          regionSenseSize := regionSenseSize[row.annotation := Size(size, contigs)];
        } else {
          regionSenseSize := regionSenseSize[row.annotation := Size(|row.sequence|, 1)];
        }
      } else {
        if row.annotation in regionAntiSize {
          var size := regionAntiSize[row.annotation].bases + |row.sequence|;
          var contigs := regionAntiSize[row.annotation].contigs + 1;
          regionAntiSize := regionAntiSize[row.annotation := Size(size, contigs)];
        } else {
          regionAntiSize := regionAntiSize[row.annotation := Size(|row.sequence|, 1)];
        }
      }
    }
  }

  /** The number of the first n rows on one end of an annotation. */
  function ContigsOf(rows: seq<RegionRow>, n: nat, senseIds: seq<int>, sense: bool, annotation: int): nat
    requires n <= |rows|
  {
    if n == 0 then 0
    else
      ContigsOf(rows, n - 1, senseIds, sense, annotation)
        + (if rows[n - 1].annotation == annotation && OnEnd(rows[n - 1], senseIds, sense) then 1 else 0)
  }

  /** The total length of the first n rows on one end of an annotation. */
  function BasesOf(rows: seq<RegionRow>, n: nat, senseIds: seq<int>, sense: bool, annotation: int): nat
    requires n <= |rows|
  {
    if n == 0 then 0
    else
      BasesOf(rows, n - 1, senseIds, sense, annotation)
        + (if rows[n - 1].annotation == annotation && OnEnd(rows[n - 1], senseIds, sense) then |rows[n - 1].sequence| else 0)
  }

  /** An annotation has an entry on an end exactly when one of its contigs
      is on that end, and the entry holds the total length and the number of
      those contigs. */
  lemma {:induction false} SizesAreTotals(rows: seq<RegionRow>, n: nat, senseIds: seq<int>, sense: bool, annotation: int)
    requires n <= |rows|
    ensures annotation in SizesAfter(rows, n, senseIds, sense) <==> ContigsOf(rows, n, senseIds, sense, annotation) > 0
    ensures ContigsOf(rows, n, senseIds, sense, annotation) == 0 ==> BasesOf(rows, n, senseIds, sense, annotation) == 0
    ensures annotation in SizesAfter(rows, n, senseIds, sense) ==>
      SizesAfter(rows, n, senseIds, sense)[annotation]
        == Size(BasesOf(rows, n, senseIds, sense, annotation), ContigsOf(rows, n, senseIds, sense, annotation))
  {
    if n > 0 {
      SizesAreTotals(rows, n - 1, senseIds, sense, annotation);
    }
  }

  /** Every contig of an annotation counts on exactly one of its ends. */
  lemma {:induction false} EndsSplitContigs(rows: seq<RegionRow>, n: nat, senseIds: seq<int>, annotation: int)
    requires n <= |rows|
    ensures ContigsOf(rows, n, senseIds, true, annotation) + ContigsOf(rows, n, senseIds, false, annotation)
      == |set k | 0 <= k < n && rows[k].annotation == annotation|
  {
    if n > 0 {
      EndsSplitContigs(rows, n - 1, senseIds, annotation);
      var before := set k | 0 <= k < n - 1 && rows[k].annotation == annotation;
      var now := set k | 0 <= k < n && rows[k].annotation == annotation;
      if rows[n - 1].annotation == annotation {
        assert now == before + {n - 1};
      } else {
        assert now == before;
      }
    }
  }

  // ----------------------------------------------------- alignment counts

  /** parseSAM: the contig name from column 2 and the quality from column 4. */
  function SamRecord(line: string): Result<(string, int)>
  {
    var entry := Split(line, '\t');
    var conName :- At(entry, 2);
    var quality :- IntAt(entry, 4);
    Ok((conName, quality))
  }

  /** The aligncount dictionary, with its keys in insertion order, and the
      total. */
  datatype AlignTally = AlignTally(aligncount: map<string, int>, order: seq<string>, total: int)

  /** Counting one alignment of a contig. */
  function Count(t: AlignTally, conName: string): AlignTally
  {
    if conName !in t.aligncount then AlignTally(t.aligncount[conName := 1], t.order + [conName], t.total + 1)
    else AlignTally(t.aligncount[conName := t.aligncount[conName] + 1], t.order, t.total + 1)
  }

  /** One line of the loop: the alignment it parses to is counted when its
      quality is above the threshold. */
  function Step(t: AlignTally, line: string, annoquality: int): Result<AlignTally>
  {
    var align :- SamRecord(line);
    if align.1 > annoquality then Ok(Count(t, align.0)) else Ok(t)
  }

  /** The tally after the first n lines, or the error the first bad line
      raises. */
  function CountAfter(lines: seq<string>, n: nat, annoquality: int): Result<AlignTally>
    requires n <= |lines|
  {
    if n == 0 then Ok(AlignTally(map[], [], 0))
    else
      var t :- CountAfter(lines, n - 1, annoquality);
      Step(t, lines[n - 1], annoquality)
  }

  /** The body of the counting loop for one line. */
  method CountLine(tally: AlignTally, line: string, annoquality: int) returns (r: Result<AlignTally>)
    ensures r == Step(tally, line, annoquality)
  {
    var align := SamRecord(line);
    if align.Err? {
      return Err(align.error);
    }
    if align.value.1 > annoquality {
      if align.value.0 !in tally.aligncount {
        r := Ok(AlignTally(tally.aligncount[align.value.0 := 1], tally.order + [align.value.0], tally.total + 1));
      } else {
        r := Ok(AlignTally(tally.aligncount[align.value.0 := tally.aligncount[align.value.0] + 1], tally.order, tally.total + 1));
      }
    } else {
      r := Ok(tally);
    }
  }

  /** The counting loop of processAlignments, reading from the cursor to the
      end of the file. */
  method CountAlignments(f: PyFile, annoquality: int) returns (r: Result<AlignTally>)
    requires f.Valid()
    modifies f
    ensures f.Valid()
    ensures r == CountAfter(old(f.lines[f.cur..]), |old(f.lines[f.cur..])|, annoquality)
  {
    ghost var rest := f.lines[f.cur..];
    ghost var start := f.cur;
    ghost var done: nat := 0;
    var tally := AlignTally(map[], [], 0);
    var line := f.ReadLine();
    while line != ""
      invariant f.Valid() && done <= |rest| && rest == f.lines[start..]
      invariant line != "" ==> done < |rest| && f.cur == start + done + 1 && line == rest[done]
      invariant line == "" ==> done == |rest|
      invariant CountAfter(rest, done, annoquality) == Ok(tally)
      decreases |rest| - done
    {
      var next := CountLine(tally, line, annoquality);
      CountAfterNext(rest, done, annoquality, tally);
      if next.Err? {
        FirstErrorStays(rest, done + 1, |rest|, annoquality);
        return next;
      }
      tally := next.value;
      done := done + 1;
      line := f.ReadLine();
    }
    r := Ok(tally);
  }

  /** Once the first n lines have given tally t, line n is counted on top of it. */
  lemma CountAfterNext(lines: seq<string>, n: nat, annoquality: int, t: AlignTally)
    requires n < |lines| && CountAfter(lines, n, annoquality) == Ok(t)
    ensures CountAfter(lines, n + 1, annoquality) == Step(t, lines[n], annoquality)
  {
  }

  /** An error on line n - 1 is the result for every longer prefix. */
  lemma {:induction false} FirstErrorStays(lines: seq<string>, n: nat, m: nat, annoquality: int)
    requires n <= m <= |lines| && CountAfter(lines, n, annoquality).Err?
    ensures CountAfter(lines, m, annoquality) == CountAfter(lines, n, annoquality)
    decreases m - n
  {
    if n < m {
      CountAfterErr(lines, n, annoquality);
      FirstErrorStays(lines, n + 1, m, annoquality);
    }
  }

  /** A tally can only be had after a tally of the lines before. */
  lemma CountAfterOkBefore(lines: seq<string>, n: nat, annoquality: int)
    requires n < |lines| && CountAfter(lines, n + 1, annoquality).Ok?
    ensures CountAfter(lines, n, annoquality).Ok?
  {
  }

  /** After an error the next line changes nothing. */
  lemma CountAfterErr(lines: seq<string>, n: nat, annoquality: int)
    requires n < |lines| && CountAfter(lines, n, annoquality).Err?
    ensures CountAfter(lines, n + 1, annoquality) == CountAfter(lines, n, annoquality)
  {
  }

  /** The sum of the counts of the listed keys. */
  function Sum(keys: seq<string>, m: map<string, int>): int
    requires forall k :: k in keys ==> k in m
  {
    if keys == [] then 0 else Sum(keys[..|keys| - 1], m) + m[keys[|keys| - 1]]
  }

  predicate Distinct(keys: seq<string>)
  {
    forall i, j :: 0 <= i < j < |keys| ==> keys[i] != keys[j]
  }

  /** The keys are listed once each, in the order they were added, and the
      total is the sum of the counts. */
  predicate Consistent(t: AlignTally)
  {
    (forall k :: k in t.order ==> k in t.aligncount)
    && (forall k :: k in t.aligncount ==> k in t.order)
    && Distinct(t.order)
    && t.total == Sum(t.order, t.aligncount)
  }

  /** Raising the count of a key listed once raises the sum by as much. */
  lemma {:induction false} SumUpdate(keys: seq<string>, m: map<string, int>, c: string, v: int)
    requires forall k :: k in keys ==> k in m
    requires Distinct(keys) && c in keys
    ensures Sum(keys, m[c := v]) == Sum(keys, m) - m[c] + v
  {
    var front := keys[..|keys| - 1];
    var last := keys[|keys| - 1];
    if last == c {
      assert c !in front;
      SumOthers(front, m, c, v);
    } else {
      assert c in front;
      SumUpdate(front, m, c, v);
    }
  }

  /** Changing a key that is not listed leaves the sum alone. */
  lemma {:induction false} SumOthers(keys: seq<string>, m: map<string, int>, c: string, v: int)
    requires forall k :: k in keys ==> k in m
    requires c !in keys
    ensures Sum(keys, m[c := v]) == Sum(keys, m)
  {
    if keys != [] {
      SumOthers(keys[..|keys| - 1], m, c, v);
    }
  }

  /** Counting an alignment keeps the tally consistent. */
  lemma CountConsistent(t: AlignTally, conName: string)
    requires Consistent(t)
    ensures Consistent(Count(t, conName))
  {
    var r := Count(t, conName);
    if conName !in t.aligncount {
      SumOthers(t.order, t.aligncount, conName, 1);
      assert r.order[..|r.order| - 1] == t.order;
    } else {
      SumUpdate(t.order, t.aligncount, conName, t.aligncount[conName] + 1);
    }
  }

  /** The number of the first n lines aligning to a contig above the
      quality threshold, and the number aligning to any contig above it. */
  function Hits(lines: seq<string>, n: nat, annoquality: int, conName: string): nat
    requires n <= |lines|
  {
    if n == 0 then 0
    else
      var align := SamRecord(lines[n - 1]);
      Hits(lines, n - 1, annoquality, conName)
        + (if align.Ok? && align.value.1 > annoquality && align.value.0 == conName then 1 else 0)
  }

  function AllHits(lines: seq<string>, n: nat, annoquality: int): nat
    requires n <= |lines|
  {
    if n == 0 then 0
    else
      var align := SamRecord(lines[n - 1]);
      AllHits(lines, n - 1, annoquality) + (if align.Ok? && align.value.1 > annoquality then 1 else 0)
  }

  /** Once the file is counted, the contigs with a count are listed once each
      and the total is both the number of alignments of quality above the
      threshold and the sum of the per-contig counts. */
  lemma {:induction false} CountsTotal(lines: seq<string>, n: nat, annoquality: int)
    requires n <= |lines| && CountAfter(lines, n, annoquality).Ok?
    ensures var t := CountAfter(lines, n, annoquality).value;
      Consistent(t) && t.total == AllHits(lines, n, annoquality)
  {
    if n > 0 {
      CountsTotal(lines, n - 1, annoquality);
      var t := CountAfter(lines, n - 1, annoquality).value;
      var align := SamRecord(lines[n - 1]).value;
      if align.1 > annoquality {
        CountConsistent(t, align.0);
      }
    }
  }

  /** Each contig's count is the number of its alignments of quality above
      the threshold; a contig with none has no entry. */
  lemma {:induction false} CountsPerContig(lines: seq<string>, n: nat, annoquality: int, c: string)
    requires n <= |lines| && CountAfter(lines, n, annoquality).Ok?
    ensures var t := CountAfter(lines, n, annoquality).value;
      (c in t.aligncount <==> Hits(lines, n, annoquality, c) > 0)
      && (c in t.aligncount ==> t.aligncount[c] == Hits(lines, n, annoquality, c))
  {
    if n > 0 {
      CountAfterOkBefore(lines, n - 1, annoquality);
      CountsPerContig(lines, n - 1, annoquality, c);
      var t := CountAfter(lines, n - 1, annoquality).value;
      CountAfterNext(lines, n - 1, annoquality, t);
      var align := SamRecord(lines[n - 1]);
      assert Hits(lines, n, annoquality, c)
        == Hits(lines, n - 1, annoquality, c) + (if align.Ok? && align.value.1 > annoquality && align.value.0 == c then 1 else 0);
    }
  }

  // -------------------------------------------------------- process list

  /** The process list once the first n antisense keys are handled: the
      sense keys, then each antisense key not already listed. */
  function UnionAfter(senseKeys: seq<int>, antiKeys: seq<int>, n: nat): seq<int>
    requires n <= |antiKeys|
  {
    if n == 0 then senseKeys
    else
      var p := UnionAfter(senseKeys, antiKeys, n - 1);
      if antiKeys[n - 1] in p then p else p + [antiKeys[n - 1]]
  }

  /** The processlist of createAnnoDataObjs: every annotation with incAll, the
      annotations with alignments otherwise. */
  method ProcessList(incAll: int, annoKeys: seq<int>, senseKeys: seq<int>, antiKeys: seq<int>) returns (processlist: seq<int>)
    ensures processlist == if incAll > 0 then annoKeys else UnionAfter(senseKeys, antiKeys, |antiKeys|)
  {
    processlist := [];
    if incAll > 0 {
      for k := 0 to |annoKeys|
        invariant processlist == annoKeys[..k]
      {
        processlist := processlist + [annoKeys[k]];
      }
      assert annoKeys[..|annoKeys|] == annoKeys;
    } else {
      for k := 0 to |senseKeys|
        invariant processlist == senseKeys[..k]
      {
        processlist := processlist + [senseKeys[k]];
      }
      assert senseKeys[..|senseKeys|] == senseKeys;
      for k := 0 to |antiKeys|
        invariant processlist == UnionAfter(senseKeys, antiKeys, k)
      {
        if antiKeys[k] !in processlist {
          processlist := processlist + [antiKeys[k]];
        }
      }
    }
  }

  /** The union starts with the sense keys, holds exactly the keys of either
      end, and, as the sense keys are dictionary keys, lists none twice. */
  lemma {:induction false} UnionContents(senseKeys: seq<int>, antiKeys: seq<int>, n: nat)
    requires n <= |antiKeys|
    ensures |senseKeys| <= |UnionAfter(senseKeys, antiKeys, n)|
    ensures UnionAfter(senseKeys, antiKeys, n)[..|senseKeys|] == senseKeys
    ensures forall x :: x in UnionAfter(senseKeys, antiKeys, n) <==> x in senseKeys || x in antiKeys[..n]
    ensures (forall i, j :: 0 <= i < j < |senseKeys| ==> senseKeys[i] != senseKeys[j]) ==>
      forall i, j :: 0 <= i < j < |UnionAfter(senseKeys, antiKeys, n)| ==>
        UnionAfter(senseKeys, antiKeys, n)[i] != UnionAfter(senseKeys, antiKeys, n)[j]
  {
    if n > 0 {
      UnionContents(senseKeys, antiKeys, n - 1);
      assert antiKeys[..n] == antiKeys[..n - 1] + [antiKeys[n - 1]];
      var p := UnionAfter(senseKeys, antiKeys, n - 1);
      if antiKeys[n - 1] !in p {
        assert (p + [antiKeys[n - 1]])[..|senseKeys|] == p[..|senseKeys|];
      }
    }
  }

  // ------------------------------------------------------------ alignfile

  /** alignfile, with the attributes processAlignments and createAnnoDataObjs
      set. */
  class AlignFile {
    const fileobj: PyFile
    const annoquality: int
    const posDataStart: nat
    var contigAlignments: map<string, int>
    var contigOrder: seq<string>
    var numTotalAlignments: int
    var processlist: seq<int>

    constructor (fileobj: PyFile, quality: int, posDataStart: nat)
      ensures this.fileobj == fileobj && annoquality == quality && this.posDataStart == posDataStart
      ensures contigAlignments == map[] && contigOrder == [] && numTotalAlignments == 0 && processlist == []
    {
      this.fileobj := fileobj;
      annoquality := quality;
      this.posDataStart := posDataStart;
      contigAlignments, contigOrder, numTotalAlignments, processlist := map[], [], 0, [];
    }

    /** processAlignments, the counting part: seek to the data start and count
        every alignment line from there.  A line that does not parse raises,
        leaving the counts unset. */
    method ProcessAlignments() returns (error: Option<PyError>)
      requires fileobj.Valid() && StartsLine(fileobj.lines, posDataStart)
      modifies this, fileobj
      ensures fileobj.Valid()
      ensures var rest := fileobj.lines[FindLine(fileobj.lines, posDataStart, 0).value..];
        var r := CountAfter(rest, |rest|, annoquality);
        (r.Err? ==>
           error == Some(r.error) && contigAlignments == old(contigAlignments)
           && contigOrder == old(contigOrder) && numTotalAlignments == old(numTotalAlignments))
        && (r.Ok? ==>
           error == None && contigAlignments == r.value.aligncount
           && contigOrder == r.value.order && numTotalAlignments == r.value.total)
      ensures processlist == old(processlist)
    {
      fileobj.Seek(posDataStart);
      var r := CountAlignments(fileobj, annoquality);
      if r.Err? {
        return Some(r.error);
      }
      contigAlignments, contigOrder, numTotalAlignments := r.value.aligncount, r.value.order, r.value.total;
      error := None;
    }

    /** createAnnoDataObjs, the list of annotations to process. */
    method CreateProcessList(incAll: int, annoKeys: seq<int>, senseKeys: seq<int>, antiKeys: seq<int>)
      modifies this
      ensures processlist == if incAll > 0 then annoKeys else UnionAfter(senseKeys, antiKeys, |antiKeys|)
      ensures contigAlignments == old(contigAlignments) && contigOrder == old(contigOrder)
      ensures numTotalAlignments == old(numTotalAlignments)
    {
      processlist := ProcessList(incAll, annoKeys, senseKeys, antiKeys);
    }
  }
}
