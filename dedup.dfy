/** The BLAT PSL reader of the deduplication step (libFURdatabase.dedupFile):
    finding where the data lines start, and gathering per query contig the
    number of alignments that cover nearly all of it and the query ranges of
    the others. */
module Dedup {
  import opened Wrappers
  import opened PyStr
  import opened TextFile

  // PSL columns read (setColumnsPSL)
  const MatchSizeCol: nat := 0
  const QueryNameCol: nat := 9
  const QuerySizeCol: nat := 10
  const MatchStartCol: nat := 11
  const MatchEndCol: nat := 12
  const TargetNameCol: nat := 13

  /** A query range [start, end] as read from the PSL line. */
  datatype Range = Range(start: int, end: int)

  /** What one PSL line contributes. */
  datatype Record =
    | Skipped                                  // an alignment to an _alt sequence, when those are ignored
    | Large(query: string)                     // an alignment covering the query but for less than minsize
    | Partial(query: string, range: Range)     // a shorter alignment, and the query range it covers

  /** The counts gathered for one query: the number of large alignments and
      the ranges of the partial ones in file order. */
  datatype Matches = Matches(large: nat, ranges: seq<Range>)

  /** The dictionary processFile returns: its keys in insertion order, and
      the value of each. */
  datatype Tally = Tally(order: seq<string>, info: map<string, Matches>)

  function Field(fields: seq<string>, k: nat): Result<string>
  {
    if k < |fields| then Ok(fields[k]) else Err(IndexError)
  }

  function IntField(fields: seq<string>, k: nat): Result<int>
  {
    var text :- Field(fields, k);
    var value := ParseInt(text);
    if value.Some? then Ok(value.value) else Err(ValueError)
  }

  /** `s[-4:] == "_alt"` */
  predicate EndsAlt(s: string)
  {
    Slice(s, -4, |s|) == "_alt"
  }

  /** The classification of one PSL line, with the IndexError or ValueError
      Python raises on a short or non-numeric line. */
  function ClassifyLine(line: string, minsize: int, ignorealt: bool): Result<Record>
  {
    var fields := Split(line, '\t');
    if ignorealt && TargetNameCol >= |fields| then Err(IndexError)
    else if ignorealt && EndsAlt(Strip(fields[TargetNameCol])) then Ok(Skipped)
    else
      var matched :- IntField(fields, MatchSizeCol);
      var querySize :- IntField(fields, QuerySizeCol);
      if matched + minsize > querySize then
        var name :- Field(fields, QueryNameCol);
        Ok(Large(name))
      else
        var start :- IntField(fields, MatchStartCol);
        var end :- IntField(fields, MatchEndCol);
        var name :- Field(fields, QueryNameCol);
        Ok(Partial(name, Range(start, end)))
  }

  /** A record is large exactly when its matched bases plus minsize exceed the
      query size, and a partial record carries columns 11 and 12 as its
      range; both are filed under column 9. */
  lemma ClassifyLineFields(line: string, minsize: int, ignorealt: bool)
    requires ClassifyLine(line, minsize, ignorealt).Ok?
    requires ClassifyLine(line, minsize, ignorealt).value != Skipped
    ensures var fields := Split(line, '\t');
      var r := ClassifyLine(line, minsize, ignorealt).value;
      |fields| > QuerySizeCol
      && ParseInt(fields[MatchSizeCol]).Some? && ParseInt(fields[QuerySizeCol]).Some?
      && r.query == fields[QueryNameCol]
      && (r.Large? <==> ParseInt(fields[MatchSizeCol]).value + minsize > ParseInt(fields[QuerySizeCol]).value)
      && (r.Partial? ==>
            |fields| > MatchEndCol
            && r.range == Range(ParseInt(fields[MatchStartCol]).value, ParseInt(fields[MatchEndCol]).value))
  {
  }

  /** Only with ignorealt set is a line skipped, and then exactly when its
      stripped target name ends in "_alt". */
  lemma ClassifyLineSkipped(line: string, minsize: int, ignorealt: bool)
    ensures ClassifyLine(line, minsize, ignorealt) == Ok(Skipped) <==>
      var fields := Split(line, '\t');
      ignorealt && |fields| > TargetNameCol && EndsAlt(Strip(fields[TargetNameCol]))
  {
  }

  // ------------------------------------------------------------- the tally

  /** Records one line's contribution in the dictionary. */
  function AddRecord(t: Tally, r: Record): Tally
  {
    match r
    case Skipped => t
    case Large(q) =>
      if q in t.info then Tally(t.order, t.info[q := Matches(t.info[q].large + 1, t.info[q].ranges)])
      else Tally(t.order + [q], t.info[q := Matches(1, [])])
    case Partial(q, g) =>
      if q in t.info then Tally(t.order, t.info[q := Matches(t.info[q].large, t.info[q].ranges + [g])])
      else Tally(t.order + [q], t.info[q := Matches(0, [g])])
  }

  /** The records of the lines, as processFile meets them. */
  function Classify(lines: seq<string>, minsize: int, ignorealt: bool): (r: seq<Result<Record>>)
    ensures |r| == |lines|
    ensures forall k :: 0 <= k < |lines| ==> r[k] == ClassifyLine(lines[k], minsize, ignorealt)
  {
    seq(|lines|, k requires 0 <= k < |lines| => ClassifyLine(lines[k], minsize, ignorealt))
  }

  /** The dictionary after the first n records, or the first error. */
  function Process(recs: seq<Result<Record>>, n: nat): Result<Tally>
    requires n <= |recs|
  {
    if n == 0 then Ok(Tally([], map[]))
    else
      var t :- Process(recs, n - 1);
      var r :- recs[n - 1];
      Ok(AddRecord(t, r))
  }

  /** The number of large alignments of query q among the first n records. */
  function LargeCount(recs: seq<Result<Record>>, n: nat, q: string): nat
    requires n <= |recs|
  {
    if n == 0 then 0
    else
      LargeCount(recs, n - 1, q) + (if recs[n - 1] == Ok(Large(q)) then 1 else 0)
  }

  /** The ranges of the partial alignments of query q among the first n
      records, in file order. */
  function RangesOf(recs: seq<Result<Record>>, n: nat, q: string): seq<Range>
    requires n <= |recs|
  {
    if n == 0 then []
    else
      var r := recs[n - 1];
      RangesOf(recs, n - 1, q) + (if r.Ok? && r.value.Partial? && r.value.query == q then [r.value.range] else [])
  }

  /** Record k is a large or a partial alignment of query q. */
  predicate About(recs: seq<Result<Record>>, k: nat, q: string)
    requires k < |recs|
  {
    recs[k].Ok? && recs[k].value != Skipped && recs[k].value.query == q
  }

  /** Query q has a large or partial alignment among the first n records. */
  predicate Mentioned(recs: seq<Result<Record>>, n: nat, q: string)
    requires n <= |recs|
  {
    exists k :: 0 <= k < n && About(recs, k, q)
  }

  /** The keys are listed once each, in the order of first appearance. */
  ghost predicate WellOrdered(t: Tally)
  {
    (forall q :: q in t.info <==> q in t.order)
    && forall i, j :: 0 <= i < j < |t.order| ==> t.order[i] != t.order[j]
  }

  /** processFile fails exactly when one of the lines raises. */
  lemma {:induction false} ProcessFails(recs: seq<Result<Record>>, n: nat)
    requires n <= |recs|
    ensures Process(recs, n).Err? <==> exists k :: 0 <= k < n && recs[k].Err?
  {
    if n > 0 {
      ProcessFails(recs, n - 1);
    }
  }

  /** A successful run has processed every record before the last. */
  lemma ProcessStep(recs: seq<Result<Record>>, n: nat)
    requires 0 < n <= |recs| && Process(recs, n).Ok?
    ensures Process(recs, n - 1).Ok? && recs[n - 1].Ok?
    ensures Process(recs, n).value == AddRecord(Process(recs, n - 1).value, recs[n - 1].value)
  {
  }

  /** The first record that fails decides the result. */
  lemma {:induction false} ProcessFirstError(recs: seq<Result<Record>>, i: nat, n: nat)
    requires i < n <= |recs| && Process(recs, i).Ok? && recs[i].Err?
    ensures Process(recs, n) == Err(recs[i].error)
  {
    if n > i + 1 {
      ProcessFirstError(recs, i, n - 1);
    }
  }

  /** The loop of processFile over the records of the data lines. */
  method Tabulate(recs: seq<Result<Record>>) returns (contigResults: Result<Tally>)
    ensures contigResults == Process(recs, |recs|)
  {
    var tally := Tally([], map[]);
    for i := 0 to |recs|
      invariant Process(recs, i) == Ok(tally)
    {
      var record := recs[i];
      if record.Err? {
        ProcessFirstError(recs, i, |recs|);
        return Err(record.error);
      }
      tally := AddRecord(tally, record.value);
    }
    contigResults := Ok(tally);
  }

  /** Each key is listed once, and the listed names are exactly the keys. */
  lemma {:induction false} ProcessOrdered(recs: seq<Result<Record>>, n: nat)
    requires n <= |recs| && Process(recs, n).Ok?
    ensures WellOrdered(Process(recs, n).value)
  {
    if n > 0 {
      ProcessStep(recs, n);
      ProcessOrdered(recs, n - 1);
    }
  }

  /** On success, the dictionary has a key for every query that some line
      mentions, and for no other. */
  lemma {:induction false} ProcessKeys(recs: seq<Result<Record>>, n: nat, q: string)
    requires n <= |recs| && Process(recs, n).Ok?
    ensures q in Process(recs, n).value.info <==> Mentioned(recs, n, q)
  {
    if n > 0 {
      ProcessStep(recs, n);
      ProcessKeys(recs, n - 1, q);
      var r := recs[n - 1].value;
      assert q in Process(recs, n).value.info <==>
        q in Process(recs, n - 1).value.info || (r != Skipped && r.query == q);
      if About(recs, n - 1, q) {
        assert Mentioned(recs, n, q);
      } else {
        if Mentioned(recs, n, q) {
          var k :| 0 <= k < n && About(recs, k, q);
          assert Mentioned(recs, n - 1, q);
        }
        if Mentioned(recs, n - 1, q) {
          var k :| 0 <= k < n - 1 && About(recs, k, q);
          assert Mentioned(recs, n, q);
        }
      }
    }
  }

  /** On success, the value for each query is the number of its large
      alignments and the ranges of its partial ones, in file order. */
  lemma {:induction false} ProcessCounts(recs: seq<Result<Record>>, n: nat, q: string)
    requires n <= |recs| && Process(recs, n).Ok? && q in Process(recs, n).value.info
    ensures Process(recs, n).value.info[q] == Matches(LargeCount(recs, n, q), RangesOf(recs, n, q))
  {
    if n > 0 {
      ProcessStep(recs, n);
      var t0 := Process(recs, n - 1).value;
      if q in t0.info {
        ProcessCounts(recs, n - 1, q);
      } else {
        ProcessKeys(recs, n - 1, q);
        NotMentionedNoCounts(recs, n - 1, q);
      }
    }
  }

  lemma {:induction false} NotMentionedNoCounts(recs: seq<Result<Record>>, n: nat, q: string)
    requires n <= |recs| && !Mentioned(recs, n, q)
    ensures LargeCount(recs, n, q) == 0 && RangesOf(recs, n, q) == []
  {
    if n > 0 {
      assert !About(recs, n - 1, q);
      NotMentionedNoCounts(recs, n - 1, q);
    }
  }

  // ------------------------------------------------------- the data start

  /** A data line: its first tab-separated field is all digits. */
  predicate IsDataLine(line: string)
  {
    IsDigits(Split(line, '\t')[MatchSizeCol])
  }

  predicate HasDataLine(lines: seq<Line>, i: nat)
  {
    exists j :: i <= j < |lines| && IsDataLine(lines[j])
  }

  /** The first data line at or after line i. */
  function FirstDataLine(lines: seq<Line>, i: nat): (j: nat)
    requires i <= |lines| && HasDataLine(lines, i)
    ensures i <= j < |lines| && IsDataLine(lines[j])
    ensures forall k :: i <= k < j ==> !IsDataLine(lines[k])
    decreases |lines| - i
  {
    if IsDataLine(lines[i]) then i
    else
      assert HasDataLine(lines, i + 1) by {
        var j :| i <= j < |lines| && IsDataLine(lines[j]);
        assert j != i;
      }
      FirstDataLine(lines, i + 1)
  }

  class DedupFile {
    const fileobj: PyFile
    var dataStartPos: nat

    ghost predicate Valid()
      reads this, fileobj
    {
      fileobj.Valid() && HasDataLine(fileobj.lines, 0)
      && dataStartPos == Offset(fileobj.lines, FirstDataLine(fileobj.lines, 0))
    }

    /** dedupFile(fileobj): finds the data start.  The source loops for ever
        on a file without a data line, so one is required. */
    constructor (f: PyFile)
      requires f.Valid() && HasDataLine(f.lines, 0)
      modifies f
      ensures fileobj == f && Valid()
    {
      fileobj := f;
      new;
      SetDataStart();
    }

    /** setDataStart: the offset of the first line whose first field is all
        digits. */
    method SetDataStart()
      requires fileobj.Valid() && HasDataLine(fileobj.lines, 0)
      modifies this, fileobj
      ensures Valid()
    {
      FindLineComplete(fileobj.lines, 0, 0);
      fileobj.Seek(0);
      var line := fileobj.ReadLine();
      var matchedbases := Split(line, '\t')[MatchSizeCol];
      while !IsDigits(matchedbases)
        invariant fileobj.Valid() && 0 < fileobj.cur && line == fileobj.lines[fileobj.cur - 1]
        invariant matchedbases == Split(line, '\t')[MatchSizeCol]
        invariant HasDataLine(fileobj.lines, fileobj.cur - 1)
        invariant FirstDataLine(fileobj.lines, 0) == FirstDataLine(fileobj.lines, fileobj.cur - 1)
        decreases |fileobj.lines| - fileobj.cur
      {
        ghost var j := FirstDataLine(fileobj.lines, fileobj.cur - 1);
        line := fileobj.ReadLine();
        matchedbases := Split(line, '\t')[MatchSizeCol];
      }
      dataStartPos := fileobj.Tell() - |line|;
    }

    /** processFile: the records of every line from the data start on, or the
        error the first bad line raises. */
    method ProcessFile(minsize: int, ignorealt: bool) returns (contigResults: Result<Tally>)
      requires Valid()
      modifies fileobj
      ensures Valid() && fileobj.cur == |fileobj.lines|
      ensures var rest := fileobj.lines[FirstDataLine(fileobj.lines, 0)..];
        contigResults == Process(Classify(rest, minsize, ignorealt), |rest|)
    {
      FindLineComplete(fileobj.lines, 0, FirstDataLine(fileobj.lines, 0));
      fileobj.Seek(dataStartPos);
      var lines := fileobj.ReadLines();
      var recs := Classify(lines, minsize, ignorealt);
      contigResults := Tabulate(recs);
    }
  }
}
