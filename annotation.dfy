/** The Annotation class of libFURshared: one line of a BED, UCSC, DFAM or GTF
    annotation file parsed into the fields the rest of the program uses, and
    its strand-aware coordinate helpers.  A Python exception raised while
    parsing (a missing column, a number that does not parse) is an error
    result, and no Annotation comes out. */
module Annotations {
  import opened Wrappers
  import opened PyStr
  import opened FurShared

  /** The attributes every parser sets. */
  datatype Fields = Fields(
    repName: string, repSize: int, chrName: string, chrSize: int, score: int, strand: string,
    alignStart: int, alignEnd: int, matchStart: int, matchEnd: int, repID: string)

  /** `fields[k]`, negative k counting from the end as a column number of -1
      (columnnum's default) does. */
  function At(fields: seq<string>, k: int): Result<string>
  {
    var item := Index(fields, k);
    if item.Some? then Ok(item.value) else Err(IndexError)
  }

  /** `int(text)` */
  function Int(text: string): Result<int>
  {
    var value := ParseInt(text);
    if value.Some? then Ok(value.value) else Err(ValueError)
  }

  /** `int(fields[k])` */
  function IntAt(fields: seq<string>, k: int): Result<int>
  {
    var text :- At(fields, k);
    Int(text)
  }

  // ---------------------------------------------------------------- parsers

  /** parseBed: name, chromosome, score, strand, start and end from columns
      3, 0, 4, 5, 1 and 2, in that order. */
  function BedFields(line: string, nullString: string, nullInt: int): Result<Fields>
  {
    var fields := Split(line, '\t');
    var repName :- At(fields, 3);
    var chrName :- At(fields, 0);
    var score :- IntAt(fields, 4);
    var strand :- At(fields, 5);
    var alignStart :- IntAt(fields, 1);
    var alignEnd :- IntAt(fields, 2);
    Ok(Fields(Strip(repName), nullInt, Strip(chrName), nullInt, score, Strip(strand),
              alignStart, alignEnd, nullInt, nullInt, nullString))
  }

  /** parseUcsc: every column found by its name in the header. */
  function UcscFields(line: string, header: string, nullString: string): Result<Fields>
  {
    var fields := Split(line, '\t');
    var strandText :- At(fields, Column(header, "strand", -1));
    var rep :- UcscRep(fields, header, strandText == "-");
    var geno :- UcscGeno(fields, header);
    // the strand, genoEnd and repEnd columns are read again, to the same values
    Ok(Fields(Strip(geno.2), rep.1 - rep.2, Strip(geno.3), geno.0 - geno.1, geno.4, Strip(strandText),
              geno.5, geno.0, rep.0, rep.1, nullString))
  }

  /** The match start, the repEnd column and the column the repeat size is
      measured back to, as parseUcsc reads them: on the "-" strand the match
      starts at repLeft and the size is measured from repStart, otherwise the
      other way around. */
  function UcscRep(fields: seq<string>, header: string, minus: bool): Result<(int, int, int)>
  {
    if minus then
      var s :- IntAt(fields, Column(header, "repLeft", -1));
      var e :- IntAt(fields, Column(header, "repEnd", -1));
      var b :- IntAt(fields, Column(header, "repStart", -1));
      Ok((s, e, b))
    else
      var s :- IntAt(fields, Column(header, "repStart", -1));
      var e :- IntAt(fields, Column(header, "repEnd", -1));
      var l :- IntAt(fields, Column(header, "repLeft", -1));
      Ok((s, e, l))
  }

  /** genoEnd, genoLeft, repName, genoName, swScore and genoStart, in the
      order parseUcsc reads them. */
  function UcscGeno(fields: seq<string>, header: string): Result<(int, int, string, string, int, int)>
  {
    var genoEnd :- IntAt(fields, Column(header, "genoEnd", -1));
    var genoLeft :- IntAt(fields, Column(header, "genoLeft", -1));
    var repName :- At(fields, Column(header, "repName", -1));
    var chrName :- At(fields, Column(header, "genoName", -1));
    var score :- IntAt(fields, Column(header, "swScore", -1));
    var alignStart :- IntAt(fields, Column(header, "genoStart", -1));
    Ok((genoEnd, genoLeft, repName, chrName, score, alignStart))
  }

  /** The texts parseDfam reads the alignment start and end from: the
      alignment start and end columns, trading places on the "-" strand. */
  function DfamEnds(fields: seq<string>, header: string, strandText: string): Result<(string, string)>
  {
    if strandText == "-" then
      var s :- At(fields, Column(header, "alignment end", 10));
      var e :- At(fields, Column(header, "alignment start", 9));
      Ok((s, e))
    else
      var s :- At(fields, Column(header, "alignment start", 9));
      var e :- At(fields, Column(header, "alignment end", 10));
      Ok((s, e))
  }

  /** The name, model length, sequence name, sequence length and score
      parseDfam reads, in that order. */
  function DfamAbout(fields: seq<string>, header: string): Result<(string, int, string, int, int)>
  {
    var repName :- At(fields, Column(header, "model name", 2));
    var repSize :- IntAt(fields, Column(header, "hmm length", 7));
    var chrName :- At(fields, Column(header, "#sequence name", 0));
    var chrSize :- IntAt(fields, Column(header, "sequence length", 13));
    var bitScore :- At(fields, Column(header, "bit score", 3));
    var score :- if ParseFloatTrunc(bitScore).Some? then Ok(ParseFloatTrunc(bitScore).value) else Err(ValueError);
    Ok((Strip(repName), repSize, Strip(chrName), chrSize, score))
  }

  /** parseDfam: columns found by name in the header, or at the standard
      position when the header does not name them; on the "-" strand the
      alignment start and end columns trade places. */
  function DfamFields(line: string, header: string, nullString: string): Result<Fields>
  {
    var fields := Split(line, '\t');
    var strandText :- At(fields, Column(header, "strand", 8));
    var ends :- DfamEnds(fields, header, strandText);
    DfamRest(fields, header, nullString, strandText, ends)
  }

  /** The rest of parseDfam once the strand and the texts of the two ends are
      read: the strand column is read again, to the same value. */
  function DfamRest(fields: seq<string>, header: string, nullString: string, strandText: string,
                    ends: (string, string)): (r: Result<Fields>)
    ensures r.Ok? ==>
      Int(ends.0) == Ok(r.value.alignStart) && Int(ends.1) == Ok(r.value.alignEnd) && r.value.strand == Strip(strandText)
  {
    var about :- DfamAbout(fields, header);
    var alignStart :- Int(ends.0);
    var alignEnd :- Int(ends.1);
    var matchStart :- IntAt(fields, Column(header, "hmm start", 6));
    var matchEnd :- IntAt(fields, Column(header, "hmm end", 7));
    Ok(Fields(about.0, about.1, about.2, about.3, about.4, Strip(strandText),
              alignStart, alignEnd, matchStart, matchEnd, nullString))
  }

  /** The repeat id parseGtf takes from the attributes column: the last
      space-separated word of the first ';' attribute, '=' read as a space,
      without quotes. */
  function RepIdOf(otherAttributes: string): string
  {
    var firstAttribute := ReplaceChar(Split(otherAttributes, ';')[0], '=', ' ');
    var words := Split(firstAttribute, ' ');
    RemoveChar(RemoveChar(Strip(words[|words| - 1]), '"'), '\'')
  }

  /** parseGtf: the feature column as the name and a "." score as nullInt. */
  function GtfFields(line: string, nullString: string, nullInt: int): Result<Fields>
  {
    var fields := Split(line, '\t');
    var otherAttributes :- At(fields, 8);
    var repName :- At(fields, 2);
    var chrName :- At(fields, 0);
    var scoreText :- At(fields, 5);
    var score :- if scoreText == "." then Ok(nullInt) else Int(scoreText);
    var strand :- At(fields, 6);
    var alignStart :- IntAt(fields, 3);
    var alignEnd :- IntAt(fields, 4);
    Ok(Fields(Strip(repName), nullInt, Strip(chrName), nullInt, score, Strip(strand),
              alignStart, alignEnd, nullInt, nullInt, RepIdOf(otherAttributes)))
  }

  /** What `Annotation(line, fileType, header)` parses: None for a fileType it does
      not support. */
  function ParseAs(line: string, fileType: string, header: string, nullString: string, nullInt: int): Result<Option<Fields>>
  {
    if fileType == BED then var f :- BedFields(line, nullString, nullInt); Ok(Some(f))
    else if fileType == UCSC then var f :- UcscFields(line, header, nullString); Ok(Some(f))
    else if fileType == DFAM then var f :- DfamFields(line, header, nullString); Ok(Some(f))
    else if fileType == GTF then var f :- GtfFields(line, nullString, nullInt); Ok(Some(f))
    else Ok(None)
  }

  // ---------------------------------------------------- 5' to 3' helpers

  /** getAlignStart53 */
  function AlignStart53(f: Fields): int
  {
    if f.strand == "-" then f.alignEnd else f.alignStart
  }

  /** getAlignEnd53 */
  function AlignEnd53(f: Fields): int
  {
    if f.strand == "-" then f.alignStart else f.alignEnd
  }

  /** getChrLeft: minus the distance from the end of the alignment to the end
      of the chromosome, when the chromosome size was parsed. */
  function ChrLeft(f: Fields, nullInt: int): (r: int)
    ensures f.chrSize != nullInt ==> f.chrSize + r == f.alignEnd
    ensures f.chrSize == nullInt ==> r == nullInt
  {
    if f.chrSize != nullInt then 0 - (f.chrSize - f.alignEnd) else nullInt
  }

  /** BED and GTF lines store no match coordinates. */
  predicate HasMatch(fileType: string)
  {
    fileType != BED && fileType != GTF
  }

  /** getMatchLeft53 */
  function MatchLeft53(fileType: string, f: Fields, nullInt: int): int
  {
    if HasMatch(fileType) then (if f.strand == "-" then f.matchStart else 0 - (f.repSize - f.matchEnd)) else nullInt
  }

  /** getMatchStart53 */
  function MatchStart53(fileType: string, f: Fields, nullInt: int): int
  {
    if HasMatch(fileType) then (if f.strand == "-" then 0 - (f.repSize - f.matchEnd) else f.matchStart) else nullInt
  }

  // ---------------------------------------------------------------- lemmas

  /** The 5' to 3' start and end are the alignment's two ends, swapped on the
      "-" strand only. */
  lemma Align53Swap(f: Fields)
    ensures f.strand == "-" ==> AlignStart53(f) == f.alignEnd && AlignEnd53(f) == f.alignStart
    ensures f.strand != "-" ==> AlignStart53(f) == f.alignStart && AlignEnd53(f) == f.alignEnd
    ensures AlignStart53(f.(strand := "-")) == AlignEnd53(f.(strand := "+"))
  {
  }

  /** The match helpers give nullInt for BED and GTF; otherwise the two trade
      values when the strand turns to "-". */
  lemma Match53Swap(fileType: string, f: Fields, nullInt: int)
    ensures !HasMatch(fileType) ==> MatchLeft53(fileType, f, nullInt) == nullInt && MatchStart53(fileType, f, nullInt) == nullInt
    ensures HasMatch(fileType) ==>
      MatchStart53(fileType, f.(strand := "-"), nullInt) == MatchLeft53(fileType, f.(strand := "+"), nullInt)
      && MatchLeft53(fileType, f.(strand := "-"), nullInt) == MatchStart53(fileType, f.(strand := "+"), nullInt)
  {
  }

  /** A BED line written from its attributes parses back to them, whatever the
      null values are. */
  lemma BedRoundTrip(chrName: string, alignStart: int, alignEnd: int, repName: string, score: int, strand: string,
                     nullString: string, nullInt: int)
    requires NoSpace(chrName) && NoSpace(repName) && NoSpace(strand)
    ensures BedFields(Join([chrName, IntToString(alignStart), IntToString(alignEnd), repName, IntToString(score), strand], '\t'),
                      nullString, nullInt)
      == Ok(Fields(repName, nullInt, chrName, nullInt, score, strand, alignStart, alignEnd, nullInt, nullInt, nullString))
  {
    var cols := [chrName, IntToString(alignStart), IntToString(alignEnd), repName, IntToString(score), strand];
    NoTab(alignStart);
    NoTab(alignEnd);
    NoTab(score);
    assert forall i :: 0 <= i < |cols| ==> '\t' !in cols[i] by {
      assert IsSpace('\t');
    }
    JoinSplit(cols, '\t');
    IntToStringRoundTrip(alignStart);
    IntToStringRoundTrip(alignEnd);
    IntToStringRoundTrip(score);
    StripNoSpace(chrName);
    StripNoSpace(repName);
    StripNoSpace(strand);
  }

  lemma NoTab(n: int)
    ensures '\t' !in IntToString(n)
  {
    var m: nat := if n < 0 then -n else n;
    assert forall c :: c in NatToString(m) ==> IsDigit(c);
  }

  /** A BED line with fewer than six columns does not parse. */
  lemma BedShortLine(line: string, nullString: string, nullInt: int)
    requires |Split(line, '\t')| < 6
    ensures BedFields(line, nullString, nullInt).Err?
  {
  }

  /** The positions of the columns parseUcsc looks up by name. */
  datatype UcscLayout = UcscLayout(
    strand: nat, repLeft: nat, repStart: nat, repEnd: nat, genoStart: nat,
    genoEnd: nat, genoLeft: nat, genoName: nat, repName: nat, swScore: nat)

  /** Field j of the header, and no other, names the column. */
  predicate NamedOnce(header: string, name: string, j: nat)
  {
    var items := Split(header, '\t');
    j < |items| && Names(items[j], name) && forall k :: 0 <= k < |items| && k != j ==> !Names(items[k], name)
  }

  /** The header names each column parseUcsc reads once, at the layout's
      position. */
  predicate UcscHeader(header: string, c: UcscLayout)
  {
    NamedOnce(header, "strand", c.strand) && NamedOnce(header, "repLeft", c.repLeft)
    && NamedOnce(header, "repStart", c.repStart) && NamedOnce(header, "repEnd", c.repEnd)
    && NamedOnce(header, "genoStart", c.genoStart) && NamedOnce(header, "genoEnd", c.genoEnd)
    && NamedOnce(header, "genoLeft", c.genoLeft) && NamedOnce(header, "genoName", c.genoName)
    && NamedOnce(header, "repName", c.repName) && NamedOnce(header, "swScore", c.swScore)
  }

  /** The header line of the UCSC RepeatMasker (rmsk) table. */
  const RmskColumns: seq<string> := ["#bin", "swScore", "milliDiv", "milliDel", "milliIns", "genoName",
    "genoStart", "genoEnd", "genoLeft", "strand", "repName", "repClass", "repFamily", "repStart",
    "repEnd", "repLeft", "id"]

  /** The rmsk header splits back into its column names, each left as it is
      by strip(). */
  lemma RmskFields()
    ensures Split(Join(RmskColumns, '\t'), '\t') == RmskColumns
    ensures forall k :: 0 <= k < |RmskColumns| ==> Strip(RmskColumns[k]) == RmskColumns[k]
  {
    RmskPlain();
    JoinSplit(RmskColumns, '\t');
    forall k | 0 <= k < |RmskColumns|
      ensures Strip(RmskColumns[k]) == RmskColumns[k]
    {
      StripNoSpace(RmskColumns[k]);
    }
  }

  /** No rmsk column name holds a tab or whitespace. */
  lemma RmskPlain()
    ensures forall k :: 0 <= k < |RmskColumns| ==> '\t' !in RmskColumns[k] && NoSpace(RmskColumns[k])
  {
  }

  /** The rmsk header names its j-th column once. */
  lemma RmskNamedOnce(j: nat)
    requires j < |RmskColumns|
    ensures NamedOnce(Join(RmskColumns, '\t'), RmskColumns[j], j)
  {
    RmskFields();
    RmskDistinct(j);
  }

  /** The rmsk column names are distinct. */
  lemma RmskDistinct(j: nat)
    requires j < |RmskColumns|
    ensures forall k :: 0 <= k < |RmskColumns| && k != j ==> RmskColumns[k] != RmskColumns[j]
  {
  }

  /** The rmsk header names each column parseUcsc reads once, so UcscColumns
      applies to the lines of that table. */
  lemma RmskHeader()
    ensures UcscHeader(Join(RmskColumns, '\t'), UcscLayout(9, 15, 13, 14, 6, 7, 8, 5, 10, 1))
  {
    RmskNamedOnce(9);
    RmskNamedOnce(15);
    RmskNamedOnce(13);
    RmskNamedOnce(14);
    RmskNamedOnce(6);
    RmskNamedOnce(7);
    RmskNamedOnce(8);
    RmskNamedOnce(5);
    RmskNamedOnce(10);
    RmskNamedOnce(1);
  }

  /** Column j of the line is there and holds an integer. */
  predicate IsInt(fields: seq<string>, j: nat)
  {
    j < |fields| && ParseInt(fields[j]).Some?
  }

  function IntOf(fields: seq<string>, j: nat): int
    requires IsInt(fields, j)
  {
    ParseInt(fields[j]).value
  }

  /** The line has every column of the layout, the numeric ones holding
      integers. */
  predicate UcscLine(fields: seq<string>, c: UcscLayout)
  {
    c.strand < |fields| && c.genoName < |fields| && c.repName < |fields|
    && IsInt(fields, c.repLeft) && IsInt(fields, c.repStart) && IsInt(fields, c.repEnd)
    && IsInt(fields, c.genoStart) && IsInt(fields, c.genoEnd) && IsInt(fields, c.genoLeft)
    && IsInt(fields, c.swScore)
  }

  /** columnnum finds a column the header names once. */
  lemma NamedOnceColumn(header: string, name: string, j: nat)
    requires NamedOnce(header, name, j)
    ensures Column(header, name, -1) == j
  {
    var items := Split(header, '\t');
    ColumnUnique(items, name, |items|, -1, j);
  }

  /** columnnum finds each column parseUcsc reads at the layout's position. */
  predicate UcscColumnsAt(header: string, c: UcscLayout)
  {
    Column(header, "strand", -1) == c.strand && Column(header, "repLeft", -1) == c.repLeft
    && Column(header, "repStart", -1) == c.repStart && Column(header, "repEnd", -1) == c.repEnd
    && Column(header, "genoStart", -1) == c.genoStart && Column(header, "genoEnd", -1) == c.genoEnd
    && Column(header, "genoLeft", -1) == c.genoLeft && Column(header, "genoName", -1) == c.genoName
    && Column(header, "repName", -1) == c.repName && Column(header, "swScore", -1) == c.swScore
  }

  /** A header naming each column once puts every column at its position. */
  lemma UcscHeaderColumns(header: string, c: UcscLayout)
    requires UcscHeader(header, c)
    ensures UcscColumnsAt(header, c)
  {
    NamedOnceColumn(header, "strand", c.strand);
    NamedOnceColumn(header, "repLeft", c.repLeft);
    NamedOnceColumn(header, "repStart", c.repStart);
    NamedOnceColumn(header, "repEnd", c.repEnd);
    NamedOnceColumn(header, "genoStart", c.genoStart);
    NamedOnceColumn(header, "genoEnd", c.genoEnd);
    NamedOnceColumn(header, "genoLeft", c.genoLeft);
    NamedOnceColumn(header, "genoName", c.genoName);
    NamedOnceColumn(header, "repName", c.repName);
    NamedOnceColumn(header, "swScore", c.swScore);
  }

  /** Reading column j of a line by its position. */
  lemma AtColumn(fields: seq<string>, j: nat)
    ensures j < |fields| ==> At(fields, j) == Ok(fields[j])
    ensures j >= |fields| ==> At(fields, j).Err?
    ensures IsInt(fields, j) ==> IntAt(fields, j) == Ok(IntOf(fields, j))
    ensures !IsInt(fields, j) ==> IntAt(fields, j).Err?
  {
  }

  /** The repeat coordinates of a UCSC line, as the strand decides them. */
  lemma UcscRepColumns(fields: seq<string>, header: string, minus: bool, c: UcscLayout)
    requires UcscColumnsAt(header, c)
    ensures UcscRep(fields, header, minus).Ok?
      <==> IsInt(fields, c.repLeft) && IsInt(fields, c.repStart) && IsInt(fields, c.repEnd)
    ensures IsInt(fields, c.repLeft) && IsInt(fields, c.repStart) && IsInt(fields, c.repEnd) ==>
      UcscRep(fields, header, minus).value ==
        if minus then
          (IntOf(fields, c.repLeft), IntOf(fields, c.repEnd), IntOf(fields, c.repStart))
        else
          (IntOf(fields, c.repStart), IntOf(fields, c.repEnd), IntOf(fields, c.repLeft))
  {
    if minus {
      UcscRepMinus(fields, header, c);
    } else {
      UcscRepPlus(fields, header, c);
    }
  }

  /** The "-" case of UcscRepColumns. */
  lemma UcscRepMinus(fields: seq<string>, header: string, c: UcscLayout)
    requires UcscColumnsAt(header, c)
    ensures UcscRep(fields, header, true).Ok?
      <==> IsInt(fields, c.repLeft) && IsInt(fields, c.repStart) && IsInt(fields, c.repEnd)
    ensures IsInt(fields, c.repLeft) && IsInt(fields, c.repStart) && IsInt(fields, c.repEnd) ==>
      UcscRep(fields, header, true).value
        == (IntOf(fields, c.repLeft), IntOf(fields, c.repEnd), IntOf(fields, c.repStart))
  {
    AtColumn(fields, c.repLeft);
    AtColumn(fields, c.repStart);
    AtColumn(fields, c.repEnd);
  }

  /** The case of any other strand. */
  lemma UcscRepPlus(fields: seq<string>, header: string, c: UcscLayout)
    requires UcscColumnsAt(header, c)
    ensures UcscRep(fields, header, false).Ok?
      <==> IsInt(fields, c.repLeft) && IsInt(fields, c.repStart) && IsInt(fields, c.repEnd)
    ensures IsInt(fields, c.repLeft) && IsInt(fields, c.repStart) && IsInt(fields, c.repEnd) ==>
      UcscRep(fields, header, false).value
        == (IntOf(fields, c.repStart), IntOf(fields, c.repEnd), IntOf(fields, c.repLeft))
  {
    AtColumn(fields, c.repLeft);
    AtColumn(fields, c.repStart);
    AtColumn(fields, c.repEnd);
  }

  /** The genomic columns and names of a UCSC line. */
  lemma UcscGenoColumns(fields: seq<string>, header: string, c: UcscLayout)
    requires UcscColumnsAt(header, c)
    ensures UcscGeno(fields, header).Ok?
      <==> IsInt(fields, c.genoEnd) && IsInt(fields, c.genoLeft) && c.repName < |fields| && c.genoName < |fields|
           && IsInt(fields, c.swScore) && IsInt(fields, c.genoStart)
    ensures UcscGeno(fields, header).Ok? ==>
      UcscGeno(fields, header).value == (IntOf(fields, c.genoEnd), IntOf(fields, c.genoLeft), fields[c.repName],
                                         fields[c.genoName], IntOf(fields, c.swScore), IntOf(fields, c.genoStart))
  {
    AtColumn(fields, c.genoEnd);
    AtColumn(fields, c.genoLeft);
    AtColumn(fields, c.repName);
    AtColumn(fields, c.genoName);
    AtColumn(fields, c.swScore);
    AtColumn(fields, c.genoStart);
  }

  /** With a header naming each column once, a UCSC line parses exactly when
      it has every column and the numeric ones hold integers.  On the "-"
      strand the match starts at repLeft and the repeat is repEnd - repStart
      long; otherwise it starts at repStart and is repEnd - repLeft long.  The
      match ends at repEnd, the chromosome size is genoEnd - genoLeft, the
      alignment runs from genoStart to genoEnd, the score is swScore, the
      names and the strand are stripped and there is no repeat id. */
  lemma UcscColumns(line: string, header: string, nullString: string, c: UcscLayout)
    requires UcscHeader(header, c)
    ensures UcscFields(line, header, nullString).Ok? <==> UcscLine(Split(line, '\t'), c)
    ensures var fields := Split(line, '\t');
      UcscLine(fields, c) ==>
        var f := UcscFields(line, header, nullString).value;
        var minus := fields[c.strand] == "-";
        f.matchStart == (if minus then IntOf(fields, c.repLeft) else IntOf(fields, c.repStart))
        && f.repSize == IntOf(fields, c.repEnd) - (if minus then IntOf(fields, c.repStart) else IntOf(fields, c.repLeft))
        && f.matchEnd == IntOf(fields, c.repEnd)
        && f.chrSize == IntOf(fields, c.genoEnd) - IntOf(fields, c.genoLeft)
        && f.alignStart == IntOf(fields, c.genoStart) && f.alignEnd == IntOf(fields, c.genoEnd)
        && f.score == IntOf(fields, c.swScore)
        && f.repName == Strip(fields[c.repName]) && f.chrName == Strip(fields[c.genoName])
        && f.strand == Strip(fields[c.strand]) && f.repID == nullString
  {
    UcscHeaderColumns(header, c);
    UcscLineColumns(line, header, nullString, c);
  }

  /** The same, for any header in which columnnum finds the columns at the
      layout's positions. */
  lemma UcscLineColumns(line: string, header: string, nullString: string, c: UcscLayout)
    requires UcscColumnsAt(header, c)
    ensures UcscFields(line, header, nullString).Ok? <==> UcscLine(Split(line, '\t'), c)
    ensures var fields := Split(line, '\t');
      UcscLine(fields, c) ==>
        var f := UcscFields(line, header, nullString).value;
        var minus := fields[c.strand] == "-";
        f.matchStart == (if minus then IntOf(fields, c.repLeft) else IntOf(fields, c.repStart))
        && f.repSize == IntOf(fields, c.repEnd) - (if minus then IntOf(fields, c.repStart) else IntOf(fields, c.repLeft))
        && f.matchEnd == IntOf(fields, c.repEnd)
        && f.chrSize == IntOf(fields, c.genoEnd) - IntOf(fields, c.genoLeft)
        && f.alignStart == IntOf(fields, c.genoStart) && f.alignEnd == IntOf(fields, c.genoEnd)
        && f.score == IntOf(fields, c.swScore)
        && f.repName == Strip(fields[c.repName]) && f.chrName == Strip(fields[c.genoName])
        && f.strand == Strip(fields[c.strand]) && f.repID == nullString
  {
    var fields := Split(line, '\t');
    AtColumn(fields, c.strand);
    if c.strand < |fields| {
      var minus := fields[c.strand] == "-";
      UcscRepColumns(fields, header, minus, c);
      UcscGenoColumns(fields, header, c);
    }
  }

  /** A UCSC line that stops before the strand column raises IndexError, the
      first column parseUcsc reads. */
  lemma UcscShortLine(line: string, header: string, nullString: string, c: UcscLayout)
    requires UcscHeader(header, c) && |Split(line, '\t')| <= c.strand
    ensures UcscFields(line, header, nullString) == Err(IndexError)
  {
    UcscHeaderColumns(header, c);
    AtColumn(Split(line, '\t'), c.strand);
  }

  /** On the "-" strand a DFAM line's alignment start is read from the
      alignment end column and the other way around. */
  lemma DfamStrandColumns(line: string, header: string, nullString: string)
    requires DfamFields(line, header, nullString).Ok?
    ensures var fields := Split(line, '\t');
      var f := DfamFields(line, header, nullString).value;
      var strandText := At(fields, Column(header, "strand", 8)).value;
      var startText := At(fields, Column(header, "alignment start", 9)).value;
      var endText := At(fields, Column(header, "alignment end", 10)).value;
      f.strand == Strip(strandText)
      && (strandText == "-" ==> Int(endText) == Ok(f.alignStart) && Int(startText) == Ok(f.alignEnd))
      && (strandText != "-" ==> Int(startText) == Ok(f.alignStart) && Int(endText) == Ok(f.alignEnd))
  {
    var fields := Split(line, '\t');
    var strandText := At(fields, Column(header, "strand", 8)).value;
    var ends := DfamEnds(fields, header, strandText).value;
    assert DfamFields(line, header, nullString) == DfamRest(fields, header, nullString, strandText, ends);
  }

  /** So when the strand column is exactly "-" or exactly "+", the 5' to 3'
      start of a DFAM annotation is always its alignment start column and
      the 5' to 3' end its alignment end column. */
  lemma DfamColumns53(line: string, header: string, nullString: string)
    requires DfamFields(line, header, nullString).Ok?
    requires At(Split(line, '\t'), Column(header, "strand", 8)).value in ["-", "+"]
    ensures var fields := Split(line, '\t');
      var f := DfamFields(line, header, nullString).value;
      Int(At(fields, Column(header, "alignment start", 9)).value) == Ok(AlignStart53(f))
      && Int(At(fields, Column(header, "alignment end", 10)).value) == Ok(AlignEnd53(f))
  {
    DfamStrandColumns(line, header, nullString);
    StripNoSpace(At(Split(line, '\t'), Column(header, "strand", 8)).value);
  }

  /** A GTF score column holding "." gives nullInt. */
  lemma GtfNullScore(line: string, nullString: string, nullInt: int)
    requires GtfFields(line, nullString, nullInt).Ok? && Split(line, '\t')[5] == "."
    ensures GtfFields(line, nullString, nullInt).value.score == nullInt
  {
  }

  /** Text with no whitespace, separator, '=' or quote in it. */
  predicate Plain(s: string)
  {
    NoSpace(s) && ';' !in s && '=' !in s && '"' !in s && '\'' !in s
  }

  /** An attribute column starting `key value;` or `key=value;` has value as
      its repeat id, with its double or single quotes removed. */
  lemma RepIdOfFirstAttribute(key: string, sep: char, quote: string, value: string, rest: string)
    requires sep in " =" && quote in ["", "\"", "'"]
    requires Plain(key) && Plain(value) && |value| > 0
    ensures RepIdOf(key + [sep] + quote + value + quote + ";" + rest) == value
  {
    var word := quote + value + quote;
    var first := key + [sep] + word;
    assert ' ' !in key && ' ' !in value by {
      assert IsSpace(' ');
    }
    assert ';' !in word && '=' !in word;
    assert ';' !in first;
    assert key + [sep] + quote + value + quote + ";" + rest == first + [';'] + rest;
    SplitCons(first, ';', rest);
    SpacedAttribute(key, sep, word);
    LastWord(key, word);
    Unquote(quote, value);
  }

  /** Reading '=' as a space in `key<sep>word` leaves `key word`. */
  lemma SpacedAttribute(key: string, sep: char, word: string)
    requires sep in " =" && '=' !in key && '=' !in word
    ensures ReplaceChar(key + [sep] + word, '=', ' ') == key + " " + word
  {
    var t := key + [sep] + word;
    forall i | 0 <= i < |t| ensures ReplaceChar(t, '=', ' ')[i] == (key + " " + word)[i] {
      if i < |key| {
        assert t[i] == key[i];
      } else if i > |key| {
        assert t[i] == word[i - |key| - 1];
      }
    }
  }

  /** The last space-separated word of `key word`, stripped, is word. */
  lemma LastWord(key: string, word: string)
    requires ' ' !in key && NoSpace(word)
    ensures var words := Split(key + " " + word, ' '); Strip(words[|words| - 1]) == word
  {
    assert ' ' !in word by {
      assert IsSpace(' ');
    }
    SplitCons(key, ' ', word);
    SplitNoSep(word, ' ');
    StripNoSpace(word);
  }

  /** Removing both kinds of quote from a quoted or bare value gives the value. */
  lemma Unquote(quote: string, value: string)
    requires quote in ["", "\"", "'"] && '"' !in value && '\'' !in value
    ensures RemoveChar(RemoveChar(quote + value + quote, '"'), '\'') == value
  {
    RemoveConcat(quote + value, quote, '"');
    RemoveConcat(quote, value, '"');
    RemoveAbsent(value, '"');
    var q := RemoveChar(quote, '"');
    assert q == (if quote == "'" then "'" else "");
    RemoveConcat(q + value, q, '\'');
    RemoveConcat(q, value, '\'');
    RemoveAbsent(value, '\'');
    assert RemoveChar(q, '\'') == "";
  }

  // ------------------------------------------------------------- the class

  /** Annotation */
  class Annotation {
    const line: string
    const fileType: string
    const header: string
    const nullString: string
    const nullInt: int
    /** "Type unsupported ..." for a fileType no parser handles. */
    var error: Option<string>
    var repName: string
    var repSize: int
    var chrName: string
    var chrSize: int
    var score: int
    var strand: string
    var alignStart: int
    var alignEnd: int
    var matchStart: int
    var matchEnd: int
    var repID: string

    function Attributes(): Fields
      reads this
    {
      Fields(repName, repSize, chrName, chrSize, score, strand, alignStart, alignEnd, matchStart, matchEnd, repID)
    }

    /** The part of __init__ that stores its arguments, before any parser
        runs; the attributes no parser has set yet hold placeholders. */
    constructor Init(line: string, fileType: string, header: string, nullString: string, nullInt: int)
      ensures this.line == line && this.fileType == fileType && this.header == header
      ensures this.nullString == nullString && this.nullInt == nullInt && error == None
    {
      this.line := line;
      this.fileType := fileType;
      this.header := header;
      this.nullString := nullString;
      this.nullInt := nullInt;
      error := None;
      repName, repSize, chrName, chrSize, score, strand := "", 0, "", 0, 0, "";
      alignStart, alignEnd, matchStart, matchEnd, repID := 0, 0, 0, 0, "";
    }

    method Store(f: Fields)
      modifies this
      ensures Attributes() == f && error == old(error)
    {
      repName, repSize, chrName, chrSize, score, strand := f.repName, f.repSize, f.chrName, f.chrSize, f.score, f.strand;
      alignStart, alignEnd, matchStart, matchEnd, repID := f.alignStart, f.alignEnd, f.matchStart, f.matchEnd, f.repID;
    }

    /** parseBed */
    method ParseBed() returns (r: Result<()>)
      modifies this
      ensures BedFields(line, nullString, nullInt).Err? ==> r == Err(BedFields(line, nullString, nullInt).error)
      ensures BedFields(line, nullString, nullInt).Ok? ==> r.Ok? && Attributes() == BedFields(line, nullString, nullInt).value
      ensures error == old(error)
    {
      var f :- BedFields(line, nullString, nullInt);
      Store(f);
      r := Ok(());
    }

    /** parseUcsc */
    method ParseUcsc() returns (r: Result<()>)
      modifies this
      ensures UcscFields(line, header, nullString).Err? ==> r == Err(UcscFields(line, header, nullString).error)
      ensures UcscFields(line, header, nullString).Ok? ==> r.Ok? && Attributes() == UcscFields(line, header, nullString).value
      ensures error == old(error)
    {
      var f :- UcscFields(line, header, nullString);
      Store(f);
      r := Ok(());
    }

    /** parseDfam */
    method ParseDfam() returns (r: Result<()>)
      modifies this
      ensures DfamFields(line, header, nullString).Err? ==> r == Err(DfamFields(line, header, nullString).error)
      ensures DfamFields(line, header, nullString).Ok? ==> r.Ok? && Attributes() == DfamFields(line, header, nullString).value
      ensures error == old(error)
    {
      var f :- DfamFields(line, header, nullString);
      Store(f);
      r := Ok(());
    }

    /** parseGtf */
    method ParseGtf() returns (r: Result<()>)
      modifies this
      ensures GtfFields(line, nullString, nullInt).Err? ==> r == Err(GtfFields(line, nullString, nullInt).error)
      ensures GtfFields(line, nullString, nullInt).Ok? ==> r.Ok? && Attributes() == GtfFields(line, nullString, nullInt).value
      ensures error == old(error)
    {
      var f :- GtfFields(line, nullString, nullInt);
      Store(f);
      r := Ok(());
    }

    function GetAlignStart53(): int reads this { AlignStart53(Attributes()) }
    function GetAlignEnd53(): int reads this { AlignEnd53(Attributes()) }
    function GetChrLeft(): int reads this { ChrLeft(Attributes(), nullInt) }
    function GetMatchLeft53(): int reads this { MatchLeft53(fileType, Attributes(), nullInt) }
    function GetMatchStart53(): int reads this { MatchStart53(fileType, Attributes(), nullInt) }
  }

  /** `Annotation(line, fileType, header, NullString, NullInt)`: dispatches on the
      fileType; an unsupported fileType is recorded in `error` and nothing is parsed,
      and an exception of the parser is returned instead of an object.  For an
      unsupported fileType the getters here return the placeholders the object
      was built with, where Python would raise AttributeError on the attributes
      never set; FURsetup.py:162-170 exits on a type it cannot detect or does
      not accept before any object is built. */
  method NewAnnotation(line: string, fileType: string, header: string, nullString: string, nullInt: int)
    returns (r: Result<Annotation>)
    ensures var p := ParseAs(line, fileType, header, nullString, nullInt);
      (p.Err? ==> r == Err(p.error))
      && (p.Ok? ==>
            r.Ok? && fresh(r.value)
            && r.value.line == line && r.value.fileType == fileType && r.value.header == header
            && r.value.nullString == nullString && r.value.nullInt == nullInt
            && (p.value.Some? ==> r.value.error == None && r.value.Attributes() == p.value.value)
            && (p.value.None? ==> r.value.error == Some("Type unsupported " + fileType)))
  {
    var a := new Annotation.Init(line, fileType, header, nullString, nullInt);
    var parsed: Result<()>;
    if fileType == BED {
      parsed := a.ParseBed();
    } else if fileType == UCSC {
      parsed := a.ParseUcsc();
    } else if fileType == DFAM {
      parsed := a.ParseDfam();
    } else if fileType == GTF {
      parsed := a.ParseGtf();
    } else {
      a.error := Some("Type unsupported " + fileType);
      parsed := Ok(());
    }
    if parsed.Err? {
      return Err(parsed.error);
    }
    r := Ok(a);
  }
}
