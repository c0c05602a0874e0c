/** The strand helpers of libFURanalysis: the reverse complement swapStrand,
    the sense test isSense and the flanking positions annotationData keeps
    for each annotation. */
module AnalysisStrand {
  import opened Wrappers
  import opened Contigs

  // ------------------------------------------------------ reverse complement

  /** The base swapStrand writes for one character: a and t, g and c trade
      places in either case; anything else is kept. */
  function Complement(c: char): char
  {
    match c
    case 'a' => 't'
    case 't' => 'a'
    case 'g' => 'c'
    case 'c' => 'g'
    case 'A' => 'T'
    case 'T' => 'A'
    case 'G' => 'C'
    case 'C' => 'G'
    case _ => c
  }

  /** `newseq` once the loop is done: every character complemented, in place. */
  function ComplementAll(s: string): (r: string)
    ensures |r| == |s|
    ensures forall i :: 0 <= i < |s| ==> r[i] == Complement(s[i])
  {
    seq(|s|, i requires 0 <= i < |s| => Complement(s[i]))
  }

  /** `s[::-1]` */
  function Reverse(s: string): (r: string)
    ensures |r| == |s|
    ensures forall i :: 0 <= i < |s| ==> r[i] == s[|s| - 1 - i]
  {
    seq(|s|, i requires 0 <= i < |s| => s[|s| - 1 - i])
  }

  /** swapStrand */
  method SwapStrand(sequence: string) returns (r: string)
    ensures r == Reverse(ComplementAll(sequence))
  {
    var newseq := "";
    for k := 0 to |sequence|
      invariant newseq == ComplementAll(sequence[..k])
    {
      var i := sequence[k];
      if i == 'a' {
        newseq := newseq + "t";
      } else if i == 't' {
        newseq := newseq + "a";
      } else if i == 'g' {
        newseq := newseq + "c";
      } else if i == 'c' {
        newseq := newseq + "g";
      } else if i == 'A' {
        newseq := newseq + "T";
      } else if i == 'T' {
        newseq := newseq + "A";
      } else if i == 'G' {
        newseq := newseq + "C";
      } else if i == 'C' {
        newseq := newseq + "G";
      } else {
        newseq := newseq + [i];
      }
      assert sequence[..k + 1] == sequence[..k] + [sequence[k]];
    }
    assert sequence[..|sequence|] == sequence;
    r := Reverse(newseq);
  }

  /** The reverse complement keeps the length, and its i-th character is the
      complement of the input's i-th character from the end. */
  lemma ReverseComplementPointwise(s: string)
    ensures |Reverse(ComplementAll(s))| == |s|
    ensures forall i :: 0 <= i < |s| ==> Reverse(ComplementAll(s))[i] == Complement(s[|s| - 1 - i])
  {
  }

  /** Complementing twice gives the character back; the case of a base is
      kept. */
  lemma ComplementInvolution(c: char)
    ensures Complement(Complement(c)) == c
    ensures ('a' <= c <= 'z') <==> ('a' <= Complement(c) <= 'z')
    ensures ('A' <= c <= 'Z') <==> ('A' <= Complement(c) <= 'Z')
    ensures c !in "acgtACGT" ==> Complement(c) == c
  {
  }

  /** swapStrand undoes itself. */
  lemma ReverseComplementInvolution(s: string)
    ensures Reverse(ComplementAll(Reverse(ComplementAll(s)))) == s
  {
    var r := Reverse(ComplementAll(Reverse(ComplementAll(s))));
    forall i | 0 <= i < |s| ensures r[i] == s[i] {
      ComplementInvolution(s[i]);
    }
  }

  // -------------------------------------------------------------- sense end

  /** isSense: 1 for a contig that starts on the sense side of the annotation
      (after it on the + strand, before it on the - strand), None otherwise. */
  function IsSense(annostart: int, strand: string, constart: int): (r: Option<int>)
    ensures r.Some? ==> r.value == 1
  {
    if strand == "+" && constart > annostart then Some(1)
    else if strand == "-" && constart < annostart then Some(1)
    else None
  }

  /** The sense test is decided by the strand and the side of the start; a
      contig starting exactly at the annotation start, or on an annotation
      of neither strand, is never on the sense side. */
  lemma IsSenseCases(annostart: int, strand: string, constart: int)
    ensures IsSense(annostart, strand, constart).Some? <==>
      (strand == "+" && constart > annostart) || (strand == "-" && constart < annostart)
    ensures constart == annostart ==> IsSense(annostart, strand, constart).None?
    ensures strand !in ["+", "-"] ==> IsSense(annostart, strand, constart).None?
  {
  }

  // ------------------------------------------------------ flanking positions

  /** The two flanking regions of an annotation. */
  datatype FlankPositions = FlankPositions(senseStart: int, senseEnd: int, antiStart: int, antiEnd: int)

  /** The positions calcFlankingPositions computes: on the + strand the sense
      region follows the annotation and the antisense one precedes it; on
      any other strand the other way around. */
  function FlankingPositions(strand: string, alignStart: int, alignEnd: int, size: int, offset: int): (r: FlankPositions)
    ensures r.senseEnd - r.senseStart == size && r.antiEnd - r.antiStart == size
  {
    if strand == "+" then
      FlankPositions(alignEnd + offset, alignEnd + offset + size, alignStart - offset - size, alignStart - offset)
    else
      FlankPositions(alignStart - offset - size, alignStart - offset, alignEnd + offset, alignEnd + offset + size)
  }

  /** The flanking positions are those of the windows the database stored for
      the annotation when both lie inside the chromosome: the sense region is
      the downstream window on the + strand and the upstream one otherwise. */
  lemma PositionsAreWindows(chr: string, strand: string, alignStart: int, alignEnd: int, size: int, offset: int)
    requires size > 0
    requires 0 <= alignStart - offset - size && alignStart - offset <= |chr|
    requires 0 <= alignEnd + offset && alignEnd + offset + size <= |chr|
    ensures var p := FlankingPositions(strand, alignStart, alignEnd, size, offset);
      var down := Downstream(chr, alignEnd, size, offset).value;
      var up := Upstream(chr, alignStart, size, offset).value;
      (strand == "+" ==> (p.senseStart, p.senseEnd) == (down.start, down.end) && (p.antiStart, p.antiEnd) == (up.start, up.end))
      && (strand != "+" ==> (p.senseStart, p.senseEnd) == (up.start, up.end) && (p.antiStart, p.antiEnd) == (down.start, down.end))
  {
    DownstreamInside(chr, alignEnd, size, offset);
    UpstreamInside(chr, alignStart, size, offset);
  }

  /** annotationData, with the attributes calcFlankingPositions reads and
      writes. */
  class AnnotationData {
    const id: int
    const alignStart: int
    const alignEnd: int
    const strand: string
    var senseStart: int
    var senseEnd: int
    var antiEnd: int
    var antiStart: int

    constructor (id: int, alignStart: int, alignEnd: int, strand: string)
      ensures this.id == id && this.alignStart == alignStart && this.alignEnd == alignEnd && this.strand == strand
      ensures senseStart == 0 && senseEnd == 0 && antiEnd == 0 && antiStart == 0
    {
      this.id := id;
      this.alignStart := alignStart;
      this.alignEnd := alignEnd;
      this.strand := strand;
      senseStart, senseEnd, antiEnd, antiStart := 0, 0, 0, 0;
    }

    /** calcFlankingPositions */
    method CalcFlankingPositions(flankingsize: int, flankingoffset: int)
      modifies this
      ensures FlankPositions(senseStart, senseEnd, antiStart, antiEnd)
        == FlankingPositions(strand, alignStart, alignEnd, flankingsize, flankingoffset)
    {
      if strand == "+" {
        senseStart := alignEnd + flankingoffset;
        senseEnd := senseStart + flankingsize;
        antiEnd := alignStart - flankingoffset;
        antiStart := antiEnd - flankingsize;
      } else {
        senseEnd := alignStart - flankingoffset;
        senseStart := senseEnd - flankingsize;
        antiStart := alignEnd + flankingoffset;
        antiEnd := antiStart + flankingsize;
      }
    }
  }
}
