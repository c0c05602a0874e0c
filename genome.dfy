/** Genome indexing and chromosome loading (libFURdatabase.indexFASTA and
    libFURdatabase.loadChr): one forward pass that records the offset of
    every FASTA header line, and a loader that seeks to a recorded offset
    and joins the record's sequence lines. */
module GenomeIndex {
  import opened Wrappers
  import opened PyStr
  import opened TextFile

  predicate IsHeader(line: string)
  {
    |line| > 0 && line[0] == '>'
  }

  /** The record name of a header line: the text after '>', stripped. */
  function HeaderName(line: string): string
    requires |line| > 0
  {
    Strip(line[1..])
  }

  /** The index of the header lines from line i on, name to offset; when a
      name repeats, the later header wins, as a later dictionary assignment
      does. */
  function HeadersFrom(lines: seq<Line>, i: nat): map<string, nat>
    requires i <= |lines|
    decreases |lines| - i
  {
    if i == |lines| then map[]
    else
      (if IsHeader(lines[i]) then map[HeaderName(lines[i]) := Offset(lines, i)] else map[])
        + HeadersFrom(lines, i + 1)
  }

  /** One step of the indexing loop keeps `index + HeadersFrom(lines, i)` fixed. */
  lemma IndexStep(lines: seq<Line>, i: nat, index: map<string, nat>)
    requires i < |lines|
    ensures (if IsHeader(lines[i]) then index[HeaderName(lines[i]) := Offset(lines, i)] else index)
      + HeadersFrom(lines, i + 1) == index + HeadersFrom(lines, i)
  {
  }

  /** indexFASTA: reads from the cursor to the end of the file. */
  method IndexFasta(f: PyFile) returns (index: map<string, nat>)
    requires f.Valid()
    modifies f
    ensures f.Valid() && f.cur == |f.lines|
    ensures index == HeadersFrom(f.lines, old(f.cur))
  {
    ghost var i0 := f.cur;
    ghost var lines := f.lines;
    var line := f.ReadLine();
    ghost var at := i0;
    index := map[];
    while line != ""
      invariant f.Valid() && f.lines == lines && at <= |lines|
      invariant index + HeadersFrom(lines, at) == HeadersFrom(lines, i0)
      invariant line != "" ==> at < |lines| && line == lines[at] && f.cur == at + 1
      invariant line == "" ==> at == |lines| == f.cur
      decreases |lines| - at
    {
      IndexStep(lines, at, index);
      if line[0] == '>' {
        var name := Strip(line[1..]);
        var position := f.Tell() - |line|;
        assert IsHeader(lines[at]) && name == HeaderName(lines[at]) && position == Offset(lines, at);
        index := index[name := position];
      }
      ghost var next := index;
      line := f.ReadLine();
      at := at + 1;
      assert next + HeadersFrom(lines, at) == HeadersFrom(lines, i0);
    }
  }

  /** HeadersFrom at line i for one key: the later lines' entry wins, and
      otherwise the key is that of line i when line i is a header. */
  lemma HeadersFromKey(lines: seq<Line>, i: nat, name: string)
    requires i < |lines|
    ensures name in HeadersFrom(lines, i + 1) ==>
      name in HeadersFrom(lines, i) && HeadersFrom(lines, i)[name] == HeadersFrom(lines, i + 1)[name]
    ensures name !in HeadersFrom(lines, i + 1) ==>
      (name in HeadersFrom(lines, i) <==> IsHeader(lines[i]) && HeaderName(lines[i]) == name)
    ensures name !in HeadersFrom(lines, i + 1) && name in HeadersFrom(lines, i) ==>
      HeadersFrom(lines, i)[name] == Offset(lines, i)
  {
  }

  /** Every entry of the index is the offset of a header line j at or after
      line i whose name is the key, and no later header carries that name. */
  lemma {:induction false} HeadersFromSound(lines: seq<Line>, i: nat, name: string) returns (j: nat)
    requires i <= |lines| && name in HeadersFrom(lines, i)
    ensures i <= j < |lines| && HeadersFrom(lines, i)[name] == Offset(lines, j)
    ensures IsHeader(lines[j]) && HeaderName(lines[j]) == name
    ensures name !in HeadersFrom(lines, j + 1)
    decreases |lines| - i
  {
    HeadersFromKey(lines, i, name);
    if name in HeadersFrom(lines, i + 1) {
      j := HeadersFromSound(lines, i + 1, name);
    } else {
      j := i;
      assert HeadersFrom(lines, j + 1) == HeadersFrom(lines, i + 1);
    }
  }

  /** Every header line from line i on is indexed, at its own offset or at
      that of a later header with the same name: the last one wins. */
  lemma {:induction false} HeadersFromComplete(lines: seq<Line>, i: nat, j: nat)
    requires i <= j < |lines| && IsHeader(lines[j])
    ensures HeaderName(lines[j]) in HeadersFrom(lines, i)
    ensures HeadersFrom(lines, i)[HeaderName(lines[j])] >= Offset(lines, j)
    decreases |lines| - i
  {
    var name := HeaderName(lines[j]);
    HeadersFromKey(lines, i, name);
    if i < j {
      HeadersFromComplete(lines, i + 1, j);
    }
    if name in HeadersFrom(lines, i + 1) {
      var k := HeadersFromSound(lines, i + 1, name);
      if k < j {
        HeadersFromComplete(lines, k + 1, j);
        assert false;
      }
      if k > j {
        OffsetMonotone(lines, j, k);
      }
    }
  }

  /** Every offset in the index is that of a line start, as seek() needs. */
  lemma HeadersFromStartsLine(lines: seq<Line>, i: nat)
    requires i <= |lines|
    ensures forall name :: name in HeadersFrom(lines, i) ==> StartsLine(lines, HeadersFrom(lines, i)[name])
  {
    forall name | name in HeadersFrom(lines, i) ensures StartsLine(lines, HeadersFrom(lines, i)[name]) {
      var j := HeadersFromSound(lines, i, name);
      FindLineComplete(lines, 0, j);
    }
  }

  /** The result of loadChr's read loop started at line i while the current
      record is `ident`: the sequence gathered, and the line the cursor is
      left at (past the header that stopped the loop, or the end). */
  datatype Loaded = Loaded(sequence: string, stop: nat)

  function LoadFrom(lines: seq<Line>, i: nat, chromosome: string, ident: string): Loaded
    requires i <= |lines|
    decreases |lines| - i
  {
    if i == |lines| then Loaded("", i)
    else if lines[i][0] == '>' then
      if ident == chromosome then Loaded("", i + 1)
      else LoadFrom(lines, i + 1, chromosome, HeaderName(lines[i]))
    else
      var rest := LoadFrom(lines, i + 1, chromosome, ident);
      if ident == chromosome then Loaded(Strip(lines[i]) + rest.sequence, rest.stop) else rest
  }

  /** The sequence of the record whose lines start at line i: the stripped
      lines up to the next header line or the end of the file, joined. */
  function RecordBody(lines: seq<Line>, i: nat): string
    requires i <= |lines|
    decreases |lines| - i
  {
    if i == |lines| || IsHeader(lines[i]) then ""
    else Strip(lines[i]) + RecordBody(lines, i + 1)
  }

  /** The sequence loadChr returns, wherever the cursor was. */
  function ChrSequence(lines: seq<Line>, index: map<string, nat>, chromosome: string): string
    requires chromosome in index ==> StartsLine(lines, index[chromosome])
  {
    if chromosome in index then LoadFrom(lines, FindLine(lines, index[chromosome], 0).value, chromosome, "").sequence
    else ""
  }

  /** loadChr: "" for a name the index lacks, otherwise the read loop from
      the indexed offset. */
  method LoadChr(f: PyFile, chromosome: string, index: map<string, nat>) returns (sequence: string)
    requires f.Valid()
    requires chromosome in index ==> StartsLine(f.lines, index[chromosome])
    modifies f
    ensures f.Valid()
    ensures chromosome !in index ==> sequence == "" && f.cur == old(f.cur)
    ensures chromosome in index ==>
      var i := FindLine(f.lines, index[chromosome], 0).value;
      Loaded(sequence, f.cur) == LoadFrom(f.lines, i, chromosome, "")
    ensures sequence == ChrSequence(f.lines, index, chromosome)
  {
    var identifier := "";
    sequence := "";
    if chromosome in index {
      f.Seek(index[chromosome]);
      ghost var i0 := f.cur;
      FindLineComplete(f.lines, 0, i0);
      var line := f.ReadLine();
      while line != ""
        invariant f.Valid()
        invariant line != "" ==>
          0 < f.cur && line == f.lines[f.cur - 1]
          && var r := LoadFrom(f.lines, f.cur - 1, chromosome, identifier);
             Loaded(sequence + r.sequence, r.stop) == LoadFrom(f.lines, i0, chromosome, "")
        invariant line == "" ==>
          f.cur == |f.lines| && Loaded(sequence, f.cur) == LoadFrom(f.lines, i0, chromosome, "")
        decreases |f.lines| - f.cur, |line|
      {
        if line[0] == '>' {
          if identifier == chromosome {
            break;
          }
          identifier := Strip(line[1..]);
        } else if identifier == chromosome {
          sequence := sequence + Strip(line);
        }
        line := f.ReadLine();
      }
    }
  }

  lemma {:induction false} LoadOwnRecord(lines: seq<Line>, i: nat, chromosome: string)
    requires i <= |lines|
    ensures LoadFrom(lines, i, chromosome, chromosome).sequence == RecordBody(lines, i)
    decreases |lines| - i
  {
    if i < |lines| && !IsHeader(lines[i]) {
      LoadOwnRecord(lines, i + 1, chromosome);
    }
  }

  /** Loading a chromosome from the index IndexFasta builds gives the body of
      the last record of that name.  The name must be non-empty: loadChr
      starts with an empty current-record name, so for "" it stops at the
      first header it reads. */
  lemma LoadIndexedChromosome(lines: seq<Line>, i: nat, chromosome: string) returns (j: nat)
    requires i <= |lines| && chromosome in HeadersFrom(lines, i) && chromosome != ""
    ensures FindLine(lines, HeadersFrom(lines, i)[chromosome], 0) == Some(j)
    ensures j < |lines| && IsHeader(lines[j])
    ensures LoadFrom(lines, j, chromosome, "").sequence == RecordBody(lines, j + 1)
  {
    j := HeadersFromSound(lines, i, chromosome);
    FindLineComplete(lines, 0, j);
    LoadOwnRecord(lines, j + 1, chromosome);
  }
}
