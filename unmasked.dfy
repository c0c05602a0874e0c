/** Softmask segmentation (libFURdatabase.findUnmaskedSeq): one pass over a
    soft-masked sequence that reports the [start, end) runs that begin at an
    uppercase character and are closed by a lowercase one, when they are at
    least `minsize` long.  Uncased characters (digits, '-') neither open
    nor close a run, and a run still open at the end of the
    text is not reported. */
module UnmaskedSeq {
  import opened PyStr

  /** A half-open [start, end) range of positions. */
  datatype Segment = Segment(start: nat, end: nat)

  /** The scan from position i on.  `open` is the start of the run being read,
      or -1 when no run is open (the source's `startpos`). */
  function Scan(s: string, minsize: int, i: nat, open: int): seq<Segment>
    requires i <= |s| && -1 <= open < i
    decreases |s| - i
  {
    if i == |s| then []
    else if IsUpper(s[i]) && open < 0 then Scan(s, minsize, i + 1, i)
    else if IsLower(s[i]) && open > -1 then
      (if i - open >= minsize then [Segment(open, i)] else []) + Scan(s, minsize, i + 1, -1)
    else Scan(s, minsize, i + 1, open)
  }

  /** What findUnmaskedSeq returns. */
  function Segments(s: string, minsize: int): seq<Segment>
  {
    Scan(s, minsize, 0, -1)
  }

  /** findUnmaskedSeq */
  method FindUnmaskedSeq(sequence: string, minsize: int) returns (remainSeqList: seq<Segment>)
    ensures remainSeqList == Segments(sequence, minsize)
  {
    var startpos := -1;
    remainSeqList := [];
    for counter := 0 to |sequence|
      invariant -1 <= startpos < counter
      invariant remainSeqList + Scan(sequence, minsize, counter, startpos) == Segments(sequence, minsize)
    {
      var c := sequence[counter];
      if IsUpper(c) && startpos < 0 {
        startpos := counter;
      } else if IsLower(c) && startpos > -1 {
        var endpos := counter;
        ghost var rest := Scan(sequence, minsize, counter + 1, -1);
        if endpos - startpos >= minsize {
          assert remainSeqList + ([Segment(startpos, endpos)] + rest)
            == (remainSeqList + [Segment(startpos, endpos)]) + rest;
          remainSeqList := remainSeqList + [Segment(startpos, endpos)];
        } else {
          assert [] + rest == rest;
        }
        startpos := -1;
      }
    }
  }

  // ------------------------------------------------------------ what a run is

  /** No lowercase character in s[a..b]. */
  ghost predicate NoLower(s: string, a: nat, b: nat)
    requires a <= b <= |s|
  {
    forall k :: a <= k < b ==> !IsLower(s[k])
  }

  /** No run is open on reaching position i: every uppercase character before
      i is followed, before i, by a lowercase one. */
  ghost predicate Closed(s: string, i: nat)
    requires i <= |s|
  {
    forall j :: 0 <= j < i && IsUpper(s[j]) ==> !NoLower(s, j, i)
  }

  /** [a, b) is a run as the scan meets it: it opens at an uppercase character
      met while no run was open, holds no lowercase character, and is closed
      by the lowercase character at b. */
  ghost predicate IsRun(s: string, a: nat, b: nat)
  {
    a < b < |s| && IsUpper(s[a]) && IsLower(s[b]) && NoLower(s, a, b) && Closed(s, a)
  }

  /** The state the scan is in on reaching position i. */
  ghost predicate ScanState(s: string, i: nat, open: int)
  {
    i <= |s| &&
    ((open == -1 && Closed(s, i)) ||
     (0 <= open < i && IsUpper(s[open]) && NoLower(s, open, i) && Closed(s, open)))
  }

  /** The scan from any reachable state reports exactly the long enough runs
      that close at or after i. */
  lemma {:induction false} ScanExact(s: string, m: int, i: nat, open: int, a: nat, b: nat)
    requires -1 <= open < i && ScanState(s, i, open)
    ensures Segment(a, b) in Scan(s, m, i, open) <==> i <= b && IsRun(s, a, b) && b - a >= m
    decreases |s| - i
  {
    if i < |s| {
      var c := s[i];
      if IsUpper(c) && open < 0 {
        assert NoLower(s, i, i + 1);
        ScanExact(s, m, i + 1, i, a, b);
      } else if IsLower(c) && open > -1 {
        assert Closed(s, i + 1) by {
          forall j | 0 <= j < i + 1 && IsUpper(s[j]) ensures !NoLower(s, j, i + 1) {
            assert !IsLower(s[i]) ==> false;
          }
        }
        ScanExact(s, m, i + 1, -1, a, b);
      } else {
        if open == -1 {
          assert Closed(s, i + 1) by {
            forall j | 0 <= j < i + 1 && IsUpper(s[j]) ensures !NoLower(s, j, i + 1) {
              if j < i {
                assert !NoLower(s, j, i);
                var k :| j <= k < i && IsLower(s[k]);
              }
            }
          }
        } else {
          assert NoLower(s, open, i + 1);
        }
        ScanExact(s, m, i + 1, open, a, b);
      }
    }
  }

  /** Every segment findUnmaskedSeq reports is a run at least `minsize` long,
      and every such run is reported. */
  lemma SegmentsExact(s: string, m: int, a: nat, b: nat)
    ensures Segment(a, b) in Segments(s, m) <==> IsRun(s, a, b) && b - a >= m
  {
    ScanExact(s, m, 0, -1, a, b);
  }

  // ------------------------------------------------------------------ order

  /** Segments are reported in order, each one ending before the next begins. */
  ghost predicate Ordered(r: seq<Segment>)
  {
    forall k :: 0 < k < |r| ==> r[k - 1].end < r[k].start
  }

  lemma {:induction false} ScanOrdered(s: string, m: int, i: nat, open: int)
    requires -1 <= open < i <= |s|
    ensures Ordered(Scan(s, m, i, open))
    ensures forall k :: 0 <= k < |Scan(s, m, i, open)| ==>
      i <= Scan(s, m, i, open)[k].end < |s| && Scan(s, m, i, open)[k].start < Scan(s, m, i, open)[k].end
      && (if open >= 0 then open else i) <= Scan(s, m, i, open)[k].start
    decreases |s| - i
  {
    if i < |s| {
      if IsUpper(s[i]) && open < 0 {
        ScanOrdered(s, m, i + 1, i);
      } else if IsLower(s[i]) && open > -1 {
        ScanOrdered(s, m, i + 1, -1);
      } else {
        ScanOrdered(s, m, i + 1, open);
      }
    }
  }

  /** The reported segments are strictly increasing, non-overlapping and
      within the text, with 0 <= start < end < |s|: the character at end
      exists and is lowercase. */
  lemma SegmentsOrdered(s: string, m: int)
    ensures Ordered(Segments(s, m))
    ensures forall k :: 0 <= k < |Segments(s, m)| ==>
      Segments(s, m)[k].start < Segments(s, m)[k].end < |s|
  {
    ScanOrdered(s, m, 0, -1);
  }

  /** Each reported segment is long enough, free of lowercase characters, opens
      at an uppercase character and is closed by a lowercase one. */
  lemma SegmentsContents(s: string, m: int, k: nat)
    requires k < |Segments(s, m)|
    ensures var g := Segments(s, m)[k];
      g.start < g.end < |s| && g.end - g.start >= m
      && IsUpper(s[g.start]) && IsLower(s[g.end])
      && forall p :: g.start <= p < g.end ==> !IsLower(s[p])
  {
    var g := Segments(s, m)[k];
    SegmentsExact(s, m, g.start, g.end);
  }

  /** A text with no lowercase character (all uppercase, say) has no segment. */
  lemma NoLowercaseNoSegments(s: string, m: int)
    requires forall p :: 0 <= p < |s| ==> !IsLower(s[p])
    ensures Segments(s, m) == []
  {
    if |Segments(s, m)| > 0 {
      SegmentsContents(s, m, 0);
    }
  }

  /** An uppercase run that reaches the end of the text is not reported: every
      segment ends at or before the last lowercase character. */
  lemma TrailingRunDropped(s: string, m: int, last: nat)
    requires last < |s| && IsLower(s[last])
    requires forall p :: last < p < |s| ==> !IsLower(s[p])
    ensures forall k :: 0 <= k < |Segments(s, m)| ==> Segments(s, m)[k].end <= last
  {
    forall k | 0 <= k < |Segments(s, m)| ensures Segments(s, m)[k].end <= last {
      SegmentsContents(s, m, k);
    }
  }

  /** For instance, of the two five-character uppercase runs below only the
      first, which a lowercase character closes, is reported. */
  lemma TrailingRunExample()
    ensures Segments("AAAAAttttAAAAA", 5) == [Segment(0, 5)]
  {
    var s := "AAAAAttttAAAAA";
    assert Scan(s, 5, 9, -1) == [] by {
      assert Scan(s, 5, 14, 9) == [];
      assert Scan(s, 5, 10, 9) == Scan(s, 5, 14, 9);
    }
    assert Scan(s, 5, 5, 0) == [Segment(0, 5)] + Scan(s, 5, 6, -1);
  }
}
