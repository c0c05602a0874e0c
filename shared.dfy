/** The helpers of libFURshared used by every part of the pipeline: the FASTA
    entry writer, the header column lookup and the annotation file type
    detection. */
module FurShared {
  import opened Wrappers
  import opened PyStr

  // ---------------------------------------------------------- FASTA entries

  /** The length of a FASTA body line. */
  const LineLength: nat := 80

  /** The body lines written for a sequence, each with its newline: the
      sequence cut into pieces of LineLength characters, the last shorter. */
  function BodyLines(s: string): seq<string>
    decreases |s|
  {
    if s == [] then []
    else if |s| <= LineLength then [s + "\n"]
    else [s[..LineLength] + "\n"] + BodyLines(s[LineLength..])
  }

  /** A FASTA entry: the header line, then the body lines. */
  function FastaEntry(ident: string, sequence: string): seq<string>
  {
    [">" + ident + "\n"] + BodyLines(sequence)
  }

  /** exportFASTAEntry: the strings written to the file, in order, one per
      write call. */
  method ExportFastaEntry(ident: string, sequence: string) returns (written: seq<string>)
    ensures written == FastaEntry(ident, sequence)
  {
    var linelength := LineLength;
    written := [">" + ident + "\n"];
    var start, end := 0, linelength;
    assert Slice(sequence, start, |sequence|) == sequence;
    while start < |sequence|
      invariant 0 <= start && end == start + linelength
      invariant written + BodyLines(Slice(sequence, start, |sequence|)) == [">" + ident + "\n"] + BodyLines(sequence)
      decreases |sequence| - start
    {
      ghost var rest := sequence[start..];
      assert Slice(sequence, start, |sequence|) == rest;
      if |rest| <= linelength {
        assert Slice(sequence, start, end) == rest;
        assert Slice(sequence, start + linelength, |sequence|) == [];
      } else {
        assert Slice(sequence, start, end) == rest[..linelength];
        assert Slice(sequence, start + linelength, |sequence|) == rest[linelength..];
      }
      written := written + [Slice(sequence, start, end) + "\n"];
      start := start + linelength;
      end := end + linelength;
    }
  }

  /** The lines with their last character (the newline) removed, joined. */
  function Unwrap(lines: seq<string>): string
    requires forall k :: 0 <= k < |lines| ==> |lines[k]| > 0
  {
    if lines == [] then "" else lines[0][..|lines[0]| - 1] + Unwrap(lines[1..])
  }

  /** There are ceil(len / 80) body lines, none for an empty sequence; each
      is one to eighty characters followed by a newline. */
  lemma {:induction false} BodyLinesShape(s: string)
    ensures |BodyLines(s)| == (|s| + LineLength - 1) / LineLength
    ensures forall k :: 0 <= k < |BodyLines(s)| ==>
      2 <= |BodyLines(s)[k]| <= LineLength + 1 && BodyLines(s)[k][|BodyLines(s)[k]| - 1] == '\n'
    decreases |s|
  {
    if |s| > LineLength {
      BodyLinesShape(s[LineLength..]);
      var r := BodyLines(s);
      assert r == [s[..LineLength] + "\n"] + BodyLines(s[LineLength..]);
      forall k | 1 <= k < |r| ensures r[k] == BodyLines(s[LineLength..])[k - 1] {}
    }
  }

  /** The body lines hold the sequence: without their newlines they join up
      to it. */
  lemma {:induction false} BodyLinesUnwrap(s: string)
    ensures forall k :: 0 <= k < |BodyLines(s)| ==> |BodyLines(s)[k]| > 0
    ensures Unwrap(BodyLines(s)) == s
    decreases |s|
  {
    if s != [] {
      var r := BodyLines(s);
      if |s| <= LineLength {
        assert r[0][..|r[0]| - 1] == s;
        assert r[1..] == [];
      } else {
        BodyLinesUnwrap(s[LineLength..]);
        assert r[0][..|r[0]| - 1] == s[..LineLength];
        assert r[1..] == BodyLines(s[LineLength..]);
        assert s[..LineLength] + s[LineLength..] == s;
      }
    }
  }

  // -------------------------------------------------------- header columns

  /** A header field names the column when both, stripped, are equal. */
  predicate Names(item: string, name: string)
  {
    Strip(item) == Strip(name)
  }

  /** The value of `count` after the first n fields: the fields that did not
      match. */
  function Misses(items: seq<string>, name: string, n: nat): (r: nat)
    requires n <= |items|
    ensures r <= n
  {
    if n == 0 then 0 else Misses(items, name, n - 1) + (if Names(items[n - 1], name) then 0 else 1)
  }

  /** The value of `column` after the first n fields: at each match it takes
      the value of `count`, so the last match wins. */
  function ColumnAfter(items: seq<string>, name: string, n: nat, default: int): int
    requires n <= |items|
  {
    if n == 0 then default
    else if Names(items[n - 1], name) then Misses(items, name, n - 1)
    else ColumnAfter(items, name, n - 1, default)
  }

  /** What columnnum returns for a tab separated header. */
  function Column(header: string, name: string, default: int): int
  {
    var items := Split(header, '\t');
    ColumnAfter(items, name, |items|, default)
  }

  /** columnnum */
  method ColumnNum(header: string, name: string, default: int) returns (column: int)
    ensures column == Column(header, name, default)
  {
    column := default;
    var count := 0;
    var items := Split(header, '\t');
    for k := 0 to |items|
      invariant column == ColumnAfter(items, name, k, default)
      invariant count == Misses(items, name, k)
    {
      if Strip(items[k]) == Strip(name) {
        column := count;
      } else {
        count := count + 1;
      }
    }
  }

  /** With no field naming the column, the default comes back. */
  lemma {:induction false} ColumnAbsent(items: seq<string>, name: string, n: nat, default: int)
    requires n <= |items|
    requires forall k :: 0 <= k < n ==> !Names(items[k], name)
    ensures ColumnAfter(items, name, n, default) == default
  {
    if n > 0 {
      ColumnAbsent(items, name, n - 1, default);
    }
  }

  /** Before the first match, every field was a miss. */
  lemma {:induction false} MissesNoMatch(items: seq<string>, name: string, n: nat)
    requires n <= |items|
    requires forall k :: 0 <= k < n ==> !Names(items[k], name)
    ensures Misses(items, name, n) == n
  {
    if n > 0 {
      MissesNoMatch(items, name, n - 1);
    }
  }

  /** With exactly one field naming the column, its index comes back. */
  lemma {:induction false} ColumnUnique(items: seq<string>, name: string, n: nat, default: int, j: nat)
    requires j < n <= |items| && Names(items[j], name)
    requires forall k :: 0 <= k < n && k != j ==> !Names(items[k], name)
    ensures ColumnAfter(items, name, n, default) == j
  {
    if n - 1 == j {
      MissesNoMatch(items, name, j);
    } else {
      ColumnUnique(items, name, n - 1, default, j);
    }
  }

  /** Because `count` does not advance on a match, a repeated name gives the
      index of its last occurrence minus the earlier occurrences: in
      "a, b, a, c" the column of "a" comes out as 1. */
  lemma ColumnRepeatedExample()
    ensures ColumnAfter(["a", "b", "a", "c"], "a", 4, -1) == 1
  {
    var items := ["a", "b", "a", "c"];
    assert Strip("a") == "a" && Strip("b") == "b" && Strip("c") == "c" by {
      StripNoSpace("a");
      StripNoSpace("b");
      StripNoSpace("c");
    }
    assert Misses(items, "a", 2) == 1;
  }

  // ------------------------------------------------------------ file types

  const BED := "BED"
  const GTF := "GTF"
  const DFAM := "DFAM"
  const UCSC := "UCSC"

  /** detectFileType, as a function of the file's name and of its first line
      (what readline returned, "" for an empty file).  IndexError when the
      first line has no word, and when the name is shorter than three
      characters and has not matched by then (`name[-3]`). */
  function DetectFileType(name: string, firstLine: string): (r: Result<Option<string>>)
    ensures r.Err? <==> FirstWord(firstLine).None? || |name| < 3
    ensures r.Ok? && r.value.Some? ==> r.value.value in {BED, GTF, DFAM, UCSC}
  {
    var start :- if FirstWord(firstLine).Some? then Ok(Strip(FirstWord(firstLine).value)) else Err(IndexError);
    var suffix := Upper(Slice(name, -3, |name|));
    if suffix == "BED" then Ok(Some(BED))
    else if suffix == "GTF" then Ok(Some(GTF))
    else if |name| < 3 then Err(IndexError)
    else if [UpperChar(name[|name| - 3])] == "GFF" then Ok(Some(GTF))
    else if suffix == "FAM" then Ok(Some(DFAM))
    else if suffix == "CSC" then Ok(Some(UCSC))
    else if Upper(start) in ["BIN", "#BIN"] then Ok(Some(UCSC))
    else if Upper(start) in ["SEQUENCE", "#SEQUENCE"] then Ok(Some(DFAM))
    else Ok(None)
  }

  /** The ".gff" test compares one character with three and never holds: a
      file named *.gff is typed by its first line, and is of no type unless
      that line starts like a UCSC or DFAM file. */
  lemma GffNotDetected(name: string, firstLine: string)
    requires |name| >= 3 && Upper(name[|name| - 3..]) == "GFF" && FirstWord(firstLine).Some?
    requires Upper(Strip(FirstWord(firstLine).value)) !in ["BIN", "#BIN", "SEQUENCE", "#SEQUENCE"]
    ensures DetectFileType(name, firstLine) == Ok(None)
  {
    assert Slice(name, -3, |name|) == name[|name| - 3..];
  }

  /** The name decides before the first line: a name ending in bed (in any
      case) is BED whenever the first line has a word. */
  lemma NameDecidesFirst(name: string, firstLine: string)
    requires |name| >= 3 && Upper(name[|name| - 3..]) == "BED" && FirstWord(firstLine).Some?
    ensures DetectFileType(name, firstLine) == Ok(Some(BED))
  {
    assert Slice(name, -3, |name|) == name[|name| - 3..];
  }

  /** With no known suffix, a first word BIN or #BIN (any case) means UCSC and
      SEQUENCE or #SEQUENCE means DFAM. */
  lemma FirstLineDecides(name: string, firstLine: string)
    requires |name| >= 3 && FirstWord(firstLine).Some?
    requires Upper(name[|name| - 3..]) !in ["BED", "GTF", "FAM", "CSC"]
    ensures var start := Upper(Strip(FirstWord(firstLine).value));
      DetectFileType(name, firstLine) ==
        if start in ["BIN", "#BIN"] then Ok(Some(UCSC))
        else if start in ["SEQUENCE", "#SEQUENCE"] then Ok(Some(DFAM))
        else Ok(None)
  {
    assert Slice(name, -3, |name|) == name[|name| - 3..];
  }
}
