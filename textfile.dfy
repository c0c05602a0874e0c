/** A text file opened for reading, as the sequence of lines readline()
    returns one after the other (each with its '\n', the last one possibly
    without), and a cursor.  tell() is the number of characters before the
    cursor, which for the ASCII files the program reads is the byte offset
    Python reports.  seek() is modelled for offsets at which a line starts,
    the only ones the FURdb code passes it. */
module TextFile {
  import opened Wrappers

  /** A line as readline() returns it before the end of the file: never empty. */
  type Line = s: string | |s| > 0 witness "\n"

  /** The offset of line i: the length of the lines before it. */
  function Offset(lines: seq<Line>, i: nat): nat
    requires i <= |lines|
    decreases i
  {
    if i == 0 then 0 else Offset(lines, i - 1) + |lines[i - 1]|
  }

  lemma {:induction false} OffsetMonotone(lines: seq<Line>, i: nat, j: nat)
    requires i < j <= |lines|
    ensures Offset(lines, i) < Offset(lines, j)
    decreases j - i
  {
    assert Offset(lines, j) == Offset(lines, j - 1) + |lines[j - 1]|;
    if i + 1 < j {
      OffsetMonotone(lines, i, j - 1);
    }
  }

  /** The line that starts at the given offset, searching from line i. */
  function FindLine(lines: seq<Line>, offset: nat, i: nat): (r: Option<nat>)
    requires i <= |lines|
    ensures r.Some? ==> i <= r.value <= |lines| && Offset(lines, r.value) == offset
    decreases |lines| - i
  {
    if Offset(lines, i) == offset then Some(i)
    else if i == |lines| || Offset(lines, i) > offset then None
    else FindLine(lines, offset, i + 1)
  }

  /** The offset is that of a line start (or of the end of the file). */
  predicate StartsLine(lines: seq<Line>, offset: nat)
  {
    FindLine(lines, offset, 0).Some?
  }

  lemma {:induction false} FindLineComplete(lines: seq<Line>, i: nat, j: nat)
    requires i <= j <= |lines|
    ensures FindLine(lines, Offset(lines, j), i) == Some(j)
    decreases |lines| - i
  {
    if i < j {
      OffsetMonotone(lines, i, j);
      FindLineComplete(lines, i + 1, j);
    }
  }

  class PyFile {
    const lines: seq<Line>
    var cur: nat

    ghost predicate Valid()
      reads this
    {
      cur <= |lines|
    }

    constructor (text: seq<Line>)
      ensures Valid() && lines == text && cur == 0
    {
      lines := text;
      cur := 0;
    }

    /** readline(): the line at the cursor, moving past it; "" at the end. */
    method ReadLine() returns (line: string)
      requires Valid()
      modifies this
      ensures Valid()
      ensures old(cur) < |lines| ==> line == lines[old(cur)] && cur == old(cur) + 1
      ensures old(cur) == |lines| ==> line == "" && cur == old(cur)
    {
      if cur < |lines| {
        line := lines[cur];
        cur := cur + 1;
      } else {
        line := "";
      }
    }

    /** readlines(): every line from the cursor on, leaving it at the end. */
    method ReadLines() returns (rest: seq<Line>)
      requires Valid()
      modifies this
      ensures Valid()
      ensures rest == old(lines[cur..]) && cur == |lines|
    {
      rest := lines[cur..];
      cur := |lines|;
    }

    /** seek(offset) */
    method Seek(offset: nat)
      requires StartsLine(lines, offset)
      modifies this
      ensures Valid() && Offset(lines, cur) == offset
      ensures cur == FindLine(lines, offset, 0).value
    {
      cur := FindLine(lines, offset, 0).value;
    }

    /** tell() */
    function Tell(): nat
      requires Valid()
      reads this
    {
      Offset(lines, cur)
    }
  }
}
