/** The contig export of libFURanalysis: exportEnd, which writes one end of
    an annotation, and the selection exportSequencesAdv makes for each
    annotation before calling it (complement flags, largest, closest and
    equal ends). */
module AnalysisExport {
  import opened PyStr
  import opened FurShared
  import opened AnalysisStrand

  /** A contig as exportSequencesAdv lists it, `[id, sequence, len(sequence),
      start]`; the length is that of the sequence. */
  datatype Contig = Contig(id: int, sequence: string, start: int)

  function Len(c: Contig): nat
  {
    |c.sequence|
  }

  // -------------------------------------------------------------- exportEnd

  /** The sequence exportEnd works on: the contig's, reverse complemented
      when `complementary` is set. */
  function Oriented(c: Contig, complementary: int): (s: string)
    ensures |s| == Len(c)
  {
    if complementary > 0 then Reverse(ComplementAll(c.sequence)) else c.sequence
  }

  /** What exportEnd writes for one contig, as (identifier, sequence), or
      nothing when the contig is shorter than `fixed`; with `fixed > 0` the
      sequence is cut to its first `fixed` characters. */
  function ExportOf(c: Contig, complementary: int, fixed: int): seq<(int, string)>
  {
    var s := Oriented(c, complementary);
    if |s| >= fixed then [(c.id, if fixed > 0 then s[..fixed] else s)] else []
  }

  /** What exportEnd writes for the first n contigs of a list. */
  function Exported(contigs: seq<Contig>, n: nat, complementary: int, fixed: int): seq<(int, string)>
    requires n <= |contigs|
  {
    if n == 0 then [] else Exported(contigs, n - 1, complementary, fixed) + ExportOf(contigs[n - 1], complementary, fixed)
  }

  /** The FASTA lines of a list of entries. */
  function Entries(entries: seq<(int, string)>): seq<string>
  {
    if entries == [] then []
    else FastaEntry(IntToString(entries[0].0), entries[0].1) + Entries(entries[1..])
  }

  lemma {:induction false} EntriesAppend(entries: seq<(int, string)>, more: seq<(int, string)>)
    ensures Entries(entries + more) == Entries(entries) + Entries(more)
  {
    if entries == [] {
      assert entries + more == more;
    } else {
      assert (entries + more)[1..] == entries[1..] + more;
      EntriesAppend(entries[1..], more);
    }
  }

  /** Nothing is written exactly when there is no entry: each entry writes
      its header line. */
  lemma EntriesEmpty(entries: seq<(int, string)>)
    ensures Entries(entries) == [] <==> entries == []
  {
  }

  /** The body of exportEnd's loop for one contig: the lines written for it,
      and whether it was exported. */
  method ExportItem(item: Contig, complementary: int, fixed: int) returns (entry: seq<string>, exported: bool)
    ensures entry == Entries(ExportOf(item, complementary, fixed))
    ensures exported <==> ExportOf(item, complementary, fixed) != []
  {
    var sequence;
    if complementary > 0 {
      sequence := SwapStrand(item.sequence);
    } else {
      sequence := item.sequence;
    }
    assert sequence == Oriented(item, complementary);
    entry, exported := [], false;
    if |sequence| >= fixed {
      if fixed > 0 {
        sequence := sequence[..fixed];
      }
      entry := ExportFastaEntry(IntToString(item.id), sequence);
      assert ExportOf(item, complementary, fixed) == [(item.id, sequence)];
      exported := true;
    }
  }

  /** exportEnd: the lines written, and the number of contigs exported. */
  method ExportEnd(contiglist: seq<Contig>, complementary: int, fixed: int) returns (written: seq<string>, exportCount: int)
    ensures written == Entries(Exported(contiglist, |contiglist|, complementary, fixed))
    ensures exportCount == |Exported(contiglist, |contiglist|, complementary, fixed)|
  {
    written := [];
    exportCount := 0;
    for k := 0 to |contiglist|
      invariant written == Entries(Exported(contiglist, k, complementary, fixed))
      invariant exportCount == |Exported(contiglist, k, complementary, fixed)|
    {
      var entry, exported := ExportItem(contiglist[k], complementary, fixed);
      EntriesAppend(Exported(contiglist, k, complementary, fixed), ExportOf(contiglist[k], complementary, fixed));
      written := written + entry;
      if exported {
        exportCount := exportCount + 1;
      }
    }
  }

  /** The number of contigs of the first n at least `fixed` long. */
  function CountAtLeast(contigs: seq<Contig>, n: nat, fixed: int): (r: nat)
    requires n <= |contigs|
    ensures r <= n
  {
    if n == 0 then 0 else CountAtLeast(contigs, n - 1, fixed) + (if Len(contigs[n - 1]) >= fixed then 1 else 0)
  }

  /** The entry exportEnd writes for a contig at least `fixed` long: its
      identifier and its (oriented) sequence, cut to the first `fixed`
      characters when `fixed > 0`. */
  predicate EntryOf(e: (int, string), c: Contig, complementary: int, fixed: int)
  {
    Len(c) >= fixed && e.0 == c.id
    && e.1 == (if fixed > 0 then Oriented(c, complementary)[..fixed] else Oriented(c, complementary))
  }

  /** exportEnd exports as many contigs as are at least `fixed` long. */
  lemma {:induction false} ExportedCount(contigs: seq<Contig>, n: nat, complementary: int, fixed: int)
    requires n <= |contigs|
    ensures |Exported(contigs, n, complementary, fixed)| == CountAtLeast(contigs, n, fixed)
  {
    if n > 0 {
      ExportedCount(contigs, n - 1, complementary, fixed);
    }
  }

  /** Each entry written for the first n contigs comes from one of them. */
  lemma {:induction false} ExportedEntry(contigs: seq<Contig>, n: nat, complementary: int, fixed: int, k: nat)
    requires n <= |contigs| && k < |Exported(contigs, n, complementary, fixed)|
    ensures exists j :: 0 <= j < n && EntryOf(Exported(contigs, n, complementary, fixed)[k], contigs[j], complementary, fixed)
  {
    var front := Exported(contigs, n - 1, complementary, fixed);
    var last := ExportOf(contigs[n - 1], complementary, fixed);
    var r := Exported(contigs, n, complementary, fixed);
    assert r == front + last;
    if k < |front| {
      ExportedEntry(contigs, n - 1, complementary, fixed, k);
      assert r[k] == front[k];
      var j :| 0 <= j < n - 1 && EntryOf(front[k], contigs[j], complementary, fixed);
      assert EntryOf(r[k], contigs[j], complementary, fixed);
    } else {
      assert r[k] == last[0];
      assert EntryOf(r[k], contigs[n - 1], complementary, fixed);
    }
  }

  /** exportEnd exports the contigs at least `fixed` long, whatever the
      orientation; each under its own identifier, with its whole (oriented)
      sequence, or with the first `fixed` characters of it when `fixed > 0`. */
  lemma ExportedContents(contigs: seq<Contig>, n: nat, complementary: int, fixed: int)
    requires n <= |contigs|
    ensures |Exported(contigs, n, complementary, fixed)| == CountAtLeast(contigs, n, fixed)
    ensures forall k :: 0 <= k < |Exported(contigs, n, complementary, fixed)| ==>
      exists j :: 0 <= j < n && EntryOf(Exported(contigs, n, complementary, fixed)[k], contigs[j], complementary, fixed)
  {
    ExportedCount(contigs, n, complementary, fixed);
    forall k | 0 <= k < |Exported(contigs, n, complementary, fixed)|
      ensures exists j :: 0 <= j < n && EntryOf(Exported(contigs, n, complementary, fixed)[k], contigs[j], complementary, fixed)
    {
      ExportedEntry(contigs, n, complementary, fixed, k);
    }
  }

  /** With `fixed > 0` every exported sequence is exactly `fixed` long. */
  lemma {:induction false} ExportedFixedLength(contigs: seq<Contig>, n: nat, complementary: int, fixed: int)
    requires n <= |contigs| && fixed > 0
    ensures forall k :: 0 <= k < |Exported(contigs, n, complementary, fixed)| ==>
      |Exported(contigs, n, complementary, fixed)[k].1| == fixed
  {
    ExportedContents(contigs, n, complementary, fixed);
    var r := Exported(contigs, n, complementary, fixed);
    forall k | 0 <= k < |r| ensures |r[k].1| == fixed {
      var j :| 0 <= j < n && EntryOf(r[k], contigs[j], complementary, fixed);
    }
  }

  // ----------------------------------------------------- complement flags

  /** `(antisenseComplementary, senseComplementary)` for the requested
      orientation and the annotation's strand character. */
  function ComplementFlags(orientation: string, strand: string): (int, int)
  {
    if orientation == "S" && strand == "-" then (1, 1)
    else if orientation == "A" && strand == "+" then (1, 1)
    else if orientation == "B" then
      if strand == "+" then (1, 0)
      else if strand == "-" then (0, 1)
      else (0, 0)
    else (0, 0)
  }

  /** Sense and antisense promoters complement both ends when the strand
      asks for it; a bidirectional one complements the antisense end on the
      + strand and the sense end on the - strand; nothing else complements. */
  lemma ComplementFlagCases(orientation: string, strand: string)
    ensures (orientation == "S" && strand == "-") || (orientation == "A" && strand == "+")
      ==> ComplementFlags(orientation, strand) == (1, 1)
    ensures orientation == "B" ==>
      ComplementFlags(orientation, strand) == (if strand == "+" then 1 else 0, if strand == "-" then 1 else 0)
    ensures !(orientation == "S" && strand == "-") && !(orientation == "A" && strand == "+") && orientation != "B"
      ==> ComplementFlags(orientation, strand) == (0, 0)
  {
  }

  // --------------------------------------------------------------- largest

  /** The position of the contig `max(..., key=length)` returns: the first of
      the longest. */
  function Longest(cs: seq<Contig>): (r: nat)
    requires cs != []
    ensures r < |cs|
    ensures forall j :: 0 <= j < |cs| ==> Len(cs[j]) <= Len(cs[r])
    ensures forall j :: 0 <= j < r ==> Len(cs[j]) < Len(cs[r])
    decreases |cs|
  {
    if |cs| == 1 then 0
    else
      var i := Longest(cs[..|cs| - 1]);
      if Len(cs[|cs| - 1]) > Len(cs[i]) then |cs| - 1 else i
  }

  // --------------------------------------------------------------- closest

  /** The starting distance of the closest search: a contig this far or
      farther from the annotation is never chosen. */
  const FarAway: int := 10000000000

  function Distance(a: int, b: int): nat
  {
    if a >= b then a - b else b - a
  }

  /** `(ClosestContig, distance)` after the first n contigs of the loop. */
  function NearestAfter(cs: seq<Contig>, n: nat, alignStart: int): (seq<Contig>, int)
    requires n <= |cs|
  {
    if n == 0 then ([], FarAway)
    else
      var (closest, distance) := NearestAfter(cs, n - 1, alignStart);
      var difference := Distance(cs[n - 1].start, alignStart);
      if difference < distance then ([cs[n - 1]], difference) else (closest, distance)
  }

  function Nearest(cs: seq<Contig>, alignStart: int): seq<Contig>
  {
    NearestAfter(cs, |cs|, alignStart).0
  }

  /** The closest loop of exportSequencesAdv, for one end. */
  method Closest(contigs: seq<Contig>, alignStart: int) returns (closest: seq<Contig>)
    ensures closest == Nearest(contigs, alignStart)
  {
    closest := [];
    var distance := FarAway;
    for k := 0 to |contigs|
      invariant (closest, distance) == NearestAfter(contigs, k, alignStart)
    {
      var contig := contigs[k];
      var difference := if contig.start >= alignStart then contig.start - alignStart else alignStart - contig.start;
      if difference < distance {
        closest := [contig];
        distance := difference;
      }
    }
  }

  /** After n contigs the search holds nothing when none is nearer than
      FarAway; otherwise it holds the first of the nearest, and its distance. */
  lemma {:induction false} NearestAfterIsFirstNearest(cs: seq<Contig>, n: nat, alignStart: int)
    requires n <= |cs|
    ensures var (closest, distance) := NearestAfter(cs, n, alignStart);
      (closest == [] <==> forall j :: 0 <= j < n ==> Distance(cs[j].start, alignStart) >= FarAway)
      && (closest == [] ==> distance == FarAway)
      && (closest != [] ==> exists k ::
            0 <= k < n && closest == [cs[k]]
            && distance == Distance(cs[k].start, alignStart) < FarAway
            && (forall j :: 0 <= j < n ==> Distance(cs[j].start, alignStart) >= distance)
            && (forall j :: 0 <= j < k ==> Distance(cs[j].start, alignStart) > distance))
  {
    if n > 0 {
      NearestAfterIsFirstNearest(cs, n - 1, alignStart);
      var (closest, distance) := NearestAfter(cs, n - 1, alignStart);
      var difference := Distance(cs[n - 1].start, alignStart);
      if difference < distance {
        assert NearestAfter(cs, n, alignStart) == ([cs[n - 1]], difference);
      } else {
        assert NearestAfter(cs, n, alignStart) == (closest, distance);
      }
    }
  }

  /** The closest rule keeps at most one contig: the first whose start is
      nearest the annotation start, provided it is nearer than FarAway. */
  lemma NearestIsFirstNearest(cs: seq<Contig>, alignStart: int)
    ensures |Nearest(cs, alignStart)| <= 1
    ensures Nearest(cs, alignStart) == [] <==> forall j :: 0 <= j < |cs| ==> Distance(cs[j].start, alignStart) >= FarAway
    ensures Nearest(cs, alignStart) != [] ==> exists k ::
      0 <= k < |cs| && Nearest(cs, alignStart) == [cs[k]]
      && (forall j :: 0 <= j < |cs| ==> Distance(cs[j].start, alignStart) >= Distance(cs[k].start, alignStart))
      && (forall j :: 0 <= j < k ==> Distance(cs[j].start, alignStart) > Distance(cs[k].start, alignStart))
  {
    NearestAfterIsFirstNearest(cs, |cs|, alignStart);
  }

  // ------------------------------------------------------------------ equal

  /** The contigs at least `fixed` long, in order. */
  function LongEnough(cs: seq<Contig>, n: nat, fixed: int): seq<Contig>
    requires n <= |cs|
  {
    if n == 0 then [] else LongEnough(cs, n - 1, fixed) + (if Len(cs[n - 1]) >= fixed then [cs[n - 1]] else [])
  }

  /** The loop that keeps the contigs at least `fixed` long. */
  method KeepLongEnough(contigs: seq<Contig>, fixed: int) returns (kept: seq<Contig>)
    ensures kept == LongEnough(contigs, |contigs|, fixed)
  {
    kept := [];
    for k := 0 to |contigs|
      invariant kept == LongEnough(contigs, k, fixed)
    {
      if Len(contigs[k]) >= fixed {
        kept := kept + [contigs[k]];
      }
    }
  }

  /** Exactly the contigs at least `fixed` long are kept, with their
      multiplicities. */
  lemma {:induction false} LongEnoughContents(cs: seq<Contig>, n: nat, fixed: int)
    requires n <= |cs|
    ensures forall c :: c in LongEnough(cs, n, fixed) <==> c in cs[..n] && Len(c) >= fixed
    ensures multiset(LongEnough(cs, n, fixed)) <= multiset(cs[..n])
  {
    if n > 0 {
      LongEnoughContents(cs, n - 1, fixed);
      assert cs[..n] == cs[..n - 1] + [cs[n - 1]];
    }
  }

  /** exportEnd writes the contigs at least `fixed` long in their list
      order: the k-th entry is that of the k-th such contig. */
  lemma {:induction false} ExportedInOrder(contigs: seq<Contig>, n: nat, complementary: int, fixed: int)
    requires n <= |contigs|
    ensures |Exported(contigs, n, complementary, fixed)| == |LongEnough(contigs, n, fixed)|
    ensures forall k :: 0 <= k < |LongEnough(contigs, n, fixed)| ==>
      EntryOf(Exported(contigs, n, complementary, fixed)[k], LongEnough(contigs, n, fixed)[k], complementary, fixed)
  {
    if n > 0 {
      ExportedInOrder(contigs, n - 1, complementary, fixed);
      var c := contigs[n - 1];
      var front, kept := Exported(contigs, n - 1, complementary, fixed), LongEnough(contigs, n - 1, fixed);
      assert Exported(contigs, n, complementary, fixed) == front + ExportOf(c, complementary, fixed);
      assert LongEnough(contigs, n, fixed) == kept + (if Len(c) >= fixed then [c] else []);
      if Len(c) >= fixed {
        assert EntryOf(ExportOf(c, complementary, fixed)[0], c, complementary, fixed);
      }
    }
  }

  /** Descending by length. */
  predicate SortedByLength(cs: seq<Contig>)
  {
    forall i, j :: 0 <= i < j < |cs| ==> Len(cs[i]) >= Len(cs[j])
  }

  /** Puts c before the first contig no longer than it. */
  function Insert(c: Contig, sorted: seq<Contig>): (r: seq<Contig>)
    ensures multiset(r) == multiset(sorted) + multiset{c}
    ensures SortedByLength(sorted) ==> SortedByLength(r)
  {
    if sorted == [] || Len(sorted[0]) <= Len(c) then
      InsertFront(c, sorted);
      [c] + sorted
    else
      var rest := Insert(c, sorted[1..]);
      assert sorted == [sorted[0]] + sorted[1..];
      InsertBehind(sorted[0], sorted[1..], c, rest);
      [sorted[0]] + rest
  }

  /** A contig at least as long as the first of a sorted list can go first. */
  lemma InsertFront(c: Contig, sorted: seq<Contig>)
    requires sorted == [] || Len(sorted[0]) <= Len(c)
    ensures SortedByLength(sorted) ==> SortedByLength([c] + sorted)
  {
    if SortedByLength(sorted) {
      var r := [c] + sorted;
      forall i, j | 0 <= i < j < |r| ensures Len(r[i]) >= Len(r[j]) {
        assert r[j] == sorted[j - 1];
        if i > 0 {
          assert r[i] == sorted[i - 1];
        }
      }
    }
  }

  /** Keeping the head x of a sorted list in front of the rest with a shorter
      contig c inserted keeps the list sorted. */
  lemma InsertBehind(x: Contig, others: seq<Contig>, c: Contig, rest: seq<Contig>)
    requires Len(x) > Len(c)
    requires multiset(rest) == multiset(others) + multiset{c}
    requires SortedByLength(others) ==> SortedByLength(rest)
    ensures SortedByLength([x] + others) ==> SortedByLength([x] + rest)
  {
    var before := [x] + others;
    if SortedByLength(before) {
      assert SortedByLength(others) by {
        forall i, j | 0 <= i < j < |others| ensures Len(others[i]) >= Len(others[j]) {
          assert others[i] == before[i + 1] && others[j] == before[j + 1];
        }
      }
      forall j | 0 <= j < |rest| ensures Len(x) >= Len(rest[j]) {
        assert rest[j] in multiset(rest);
        if rest[j] != c {
          assert rest[j] in multiset(others);
          var k :| 0 <= k < |others| && others[k] == rest[j];
          assert before[0] == x && before[k + 1] == others[k];
          assert Len(before[0]) >= Len(before[k + 1]);
        }
      }
      var r := [x] + rest;
      forall i, j | 0 <= i < j < |r| ensures Len(r[i]) >= Len(r[j]) {
        assert r[j] == rest[j - 1];
        if i > 0 {
          assert r[i] == rest[i - 1];
        }
      }
    }
  }

  /** `sorted(contigs, key=length, reverse=True)`: the longest first, and
      contigs of the same length in their original order. */
  function SortByLength(cs: seq<Contig>): (r: seq<Contig>)
    ensures SortedByLength(r)
    ensures multiset(r) == multiset(cs)
  {
    if cs == [] then []
    else
      assert cs == [cs[0]] + cs[1..];
      Insert(cs[0], SortByLength(cs[1..]))
  }

  /** The equal rule on both ends once trimmed. */
  function EqualEnds(sense: seq<Contig>, anti: seq<Contig>, fixed: int): (r: (seq<Contig>, seq<Contig>))
    ensures |r.0| == |r.1|
  {
    if |sense| > 1 || |anti| > 1 then
      var s := SortByLength(LongEnough(sense, |sense|, fixed));
      var a := SortByLength(LongEnough(anti, |anti|, fixed));
      var numContigs := if |s| <= |a| then |s| else |a|;
      (s[..numContigs], a[..numContigs])
    else if |sense| == 0 || |anti| == 0 then ([], [])
    else (sense, anti)
  }

  /** One end after the largest or closest rule. */
  function Narrowed(cs: seq<Contig>, alignStart: int, largestonly: int, closest: int): seq<Contig>
  {
    if largestonly > 0 then (if cs != [] then [cs[Longest(cs)]] else [])
    else if closest > 0 then Nearest(cs, alignStart)
    else cs
  }

  /** The export options exportSequencesAdv takes. */
  datatype Options = Options(orientation: string, end: string, equal: int, largestonly: int, fixed: int, closest: int)

  /** The sense and antisense contigs left once the selection is made. */
  function Selected(sense: seq<Contig>, anti: seq<Contig>, alignStart: int, o: Options): (r: (seq<Contig>, seq<Contig>))
    ensures o.equal > 0 ==> |r.0| == |r.1|
  {
    var s := Narrowed(sense, alignStart, o.largestonly, o.closest);
    var a := Narrowed(anti, alignStart, o.largestonly, o.closest);
    if o.equal > 0 then EqualEnds(s, a, o.fixed) else (s, a)
  }

  /** The selection part of exportSequencesAdv (lines 112 to 165). */
  method SelectContigs(sense: seq<Contig>, anti: seq<Contig>, alignStart: int, o: Options)
    returns (senseContigs: seq<Contig>, antisenseContigs: seq<Contig>)
    ensures (senseContigs, antisenseContigs) == Selected(sense, anti, alignStart, o)
  {
    senseContigs, antisenseContigs := sense, anti;
    if o.largestonly > 0 {
      if senseContigs != [] {
        senseContigs := [senseContigs[Longest(senseContigs)]];
      }
      if antisenseContigs != [] {
        antisenseContigs := [antisenseContigs[Longest(antisenseContigs)]];
      }
    } else if o.closest > 0 {
      senseContigs := Closest(senseContigs, alignStart);
      antisenseContigs := Closest(antisenseContigs, alignStart);
    }
    if o.equal > 0 {
      if |senseContigs| > 1 || |antisenseContigs| > 1 {
        senseContigs := KeepLongEnough(senseContigs, o.fixed);
        antisenseContigs := KeepLongEnough(antisenseContigs, o.fixed);
        senseContigs := SortByLength(senseContigs);
        antisenseContigs := SortByLength(antisenseContigs);
        var numContigs := if |senseContigs| <= |antisenseContigs| then |senseContigs| else |antisenseContigs|;
        senseContigs := senseContigs[..numContigs];
        antisenseContigs := antisenseContigs[..numContigs];
      } else if |senseContigs| == 0 || |antisenseContigs| == 0 {
        senseContigs := [];
        antisenseContigs := [];
      }
    }
  }

  /** The largest rule keeps one contig of each non-empty end, one of the
      longest, whatever the closest option says. */
  lemma LargestRule(cs: seq<Contig>, alignStart: int, largestonly: int, closest: int, closest2: int)
    requires largestonly > 0
    ensures Narrowed(cs, alignStart, largestonly, closest) == Narrowed(cs, alignStart, largestonly, closest2)
    ensures var r := Narrowed(cs, alignStart, largestonly, closest);
      |r| <= 1 && (r == [] <==> cs == [])
      && (r != [] ==> r[0] in cs && forall j :: 0 <= j < |cs| ==> Len(cs[j]) <= Len(r[0]))
  {
  }

  /** The closest rule, when largest is off, keeps the first of the nearest
      contigs of each end. */
  lemma ClosestRule(cs: seq<Contig>, alignStart: int, largestonly: int, closest: int)
    requires largestonly <= 0 && closest > 0
    ensures var r := Narrowed(cs, alignStart, largestonly, closest);
      |r| <= 1
      && (r != [] ==> exists k ::
        0 <= k < |cs| && r == [cs[k]]
        && (forall j :: 0 <= j < |cs| ==> Distance(cs[j].start, alignStart) >= Distance(cs[k].start, alignStart))
        && (forall j :: 0 <= j < k ==> Distance(cs[j].start, alignStart) > Distance(cs[k].start, alignStart)))
  {
    NearestIsFirstNearest(cs, alignStart);
  }

  /** The longest m of the contigs at least `fixed` long, longest first. */
  lemma LongestEnough(cs: seq<Contig>, fixed: int, m: nat)
    requires m <= |SortByLength(LongEnough(cs, |cs|, fixed))|
    ensures var t := SortByLength(LongEnough(cs, |cs|, fixed))[..m];
      SortedByLength(t) && (forall k :: 0 <= k < m ==> Len(t[k]) >= fixed) && multiset(t) <= multiset(cs)
  {
    var kept := LongEnough(cs, |cs|, fixed);
    LongEnoughContents(cs, |cs|, fixed);
    assert cs[..|cs|] == cs;
    var ss := SortByLength(kept);
    PrefixSorted(ss, m);
    PrefixMultiset(ss, m);
    forall k | 0 <= k < m ensures Len(ss[k]) >= fixed {
      assert ss[k] in multiset(kept);
    }
  }

  /** With several contigs on an end, the equal rule keeps on both ends the
      same number of contigs, each at least `fixed` long, longest first: the
      longest of that end, as many as the shorter list has. */
  lemma EqualRuleSeveral(sense: seq<Contig>, anti: seq<Contig>, fixed: int)
    requires |sense| > 1 || |anti| > 1
    ensures var (s, a) := EqualEnds(sense, anti, fixed);
      var ss := SortByLength(LongEnough(sense, |sense|, fixed));
      var aa := SortByLength(LongEnough(anti, |anti|, fixed));
      |s| == |a| == (if |ss| <= |aa| then |ss| else |aa|)
      && s == ss[..|s|] && a == aa[..|a|]
      && SortedByLength(s) && SortedByLength(a)
      && (forall k :: 0 <= k < |s| ==> Len(s[k]) >= fixed && Len(a[k]) >= fixed)
      && multiset(s) <= multiset(sense) && multiset(a) <= multiset(anti)
  {
    var (s, a) := EqualEnds(sense, anti, fixed);
    LongestEnough(sense, fixed, |s|);
    LongestEnough(anti, fixed, |a|);
  }

  /** With at most one contig on each end, the equal rule empties both ends
      when one of them is empty and changes nothing otherwise. */
  lemma EqualRuleFew(sense: seq<Contig>, anti: seq<Contig>, fixed: int)
    requires |sense| <= 1 && |anti| <= 1
    ensures EqualEnds(sense, anti, fixed) == if sense == [] || anti == [] then ([], []) else (sense, anti)
  {
  }

  lemma PrefixSorted(cs: seq<Contig>, n: nat)
    requires SortedByLength(cs) && n <= |cs|
    ensures SortedByLength(cs[..n])
  {
  }

  lemma PrefixMultiset(cs: seq<Contig>, n: nat)
    requires n <= |cs|
    ensures multiset(cs[..n]) <= multiset(cs)
  {
    assert cs == cs[..n] + cs[n..];
  }

  // -------------------------------------------------- export of one annotation

  /** What the equal-ends loop writes for one pair: each end cut to the
      shorter of the two. */
  function PairOutput(cs: Contig, ca: Contig, senseComplementary: int, antisenseComplementary: int): seq<string>
  {
    var fixedval := if Len(cs) <= Len(ca) then Len(cs) else Len(ca);
    Entries(Exported([cs], 1, senseComplementary, fixedval)) + Entries(Exported([ca], 1, antisenseComplementary, fixedval))
  }

  /** What the equal-ends loop writes, popping the pairs from the front. */
  function PairsOutput(sense: seq<Contig>, anti: seq<Contig>, senseComplementary: int, antisenseComplementary: int): seq<string>
    requires |sense| == |anti|
  {
    if sense == [] then []
    else
      PairOutput(sense[0], anti[0], senseComplementary, antisenseComplementary)
        + PairsOutput(sense[1..], anti[1..], senseComplementary, antisenseComplementary)
  }

  /** The cut length of a pair is the length of its shorter contig, so both
      contigs are exported. */
  lemma PairBothExported(cs: Contig, ca: Contig, senseComplementary: int, antisenseComplementary: int)
    ensures var fixedval := if Len(cs) <= Len(ca) then Len(cs) else Len(ca);
      |Exported([cs], 1, senseComplementary, fixedval)| == 1
      && |Exported([ca], 1, antisenseComplementary, fixedval)| == 1
  {
  }

  /** One round of the equal-ends loop: both contigs exported at the length
      of the shorter one, and the two counts exportEnd returns, both 1. */
  method ExportPair(currentSense: Contig, currentAnti: Contig, senseComplementary: int, antisenseComplementary: int)
    returns (written: seq<string>, aCount: int, sCount: int)
    ensures written == PairOutput(currentSense, currentAnti, senseComplementary, antisenseComplementary)
    ensures aCount == 1 && sCount == 1
  {
    var fixedval := if Len(currentSense) <= Len(currentAnti) then Len(currentSense) else Len(currentAnti);
    var w1, w2;
    w1, aCount := ExportEnd([currentSense], senseComplementary, fixedval);
    w2, sCount := ExportEnd([currentAnti], antisenseComplementary, fixedval);
    PairBothExported(currentSense, currentAnti, senseComplementary, antisenseComplementary);
    written := w1 + w2;
  }

  /** The equal-ends loop (lines 173 to 182): the lines written and whether
      the annotation was recorded as excluded, which it never is. */
  method ExportPairs(sense: seq<Contig>, anti: seq<Contig>, senseComplementary: int, antisenseComplementary: int)
    returns (written: seq<string>, excluded: bool)
    requires |sense| == |anti|
    ensures written == PairsOutput(sense, anti, senseComplementary, antisenseComplementary)
    ensures !excluded
  {
    written := [];
    excluded := false;
    var senseContigs, antisenseContigs := sense, anti;
    while senseContigs != []
      invariant |senseContigs| == |antisenseContigs| && !excluded
      invariant written + PairsOutput(senseContigs, antisenseContigs, senseComplementary, antisenseComplementary)
        == PairsOutput(sense, anti, senseComplementary, antisenseComplementary)
      decreases |senseContigs|
    {
      var currentSense := senseContigs[0];
      senseContigs := senseContigs[1..];
      var currentAnti := antisenseContigs[0];
      antisenseContigs := antisenseContigs[1..];
      var w, aCount, sCount := ExportPair(currentSense, currentAnti, senseComplementary, antisenseComplementary);
      written := written + w;
      if aCount == 0 && sCount == 0 {
        excluded := true;
      }
    }
  }

  /** Every pair writes lines, so the loop writes nothing only when there is
      no pair. */
  lemma {:induction false} PairsOutputEmpty(sense: seq<Contig>, anti: seq<Contig>, senseComplementary: int, antisenseComplementary: int)
    requires |sense| == |anti|
    ensures PairsOutput(sense, anti, senseComplementary, antisenseComplementary) == [] <==> sense == []
  {
    if sense != [] {
      PairBothExported(sense[0], anti[0], senseComplementary, antisenseComplementary);
      var fixedval := if Len(sense[0]) <= Len(anti[0]) then Len(sense[0]) else Len(anti[0]);
      EntriesEmpty(Exported([sense[0]], 1, senseComplementary, fixedval));
    }
  }

  /** What exportSequencesAdv writes for one annotation. */
  function AnnotationOutput(sense: seq<Contig>, anti: seq<Contig>, strand: char, alignStart: int, o: Options): seq<string>
  {
    var (antisenseComplementary, senseComplementary) := ComplementFlags(o.orientation, [strand]);
    var (s, a) := Selected(sense, anti, alignStart, o);
    if o.fixed == 0 && o.equal > 0 then PairsOutput(s, a, senseComplementary, antisenseComplementary)
    else
      (if o.end != "A" then Entries(Exported(s, |s|, senseComplementary, o.fixed)) else [])
      + (if o.end != "S" then Entries(Exported(a, |a|, antisenseComplementary, o.fixed)) else [])
  }

  /** The ends written when no equal-length pairing is asked for: the sense
      end unless only the antisense one is wanted, then the antisense end
      unless only the sense one is wanted; and whether neither wrote a
      contig. */
  method ExportEnds(senseContigs: seq<Contig>, antisenseContigs: seq<Contig>, senseComplementary: int,
                    antisenseComplementary: int, end: string, fixed: int)
    returns (written: seq<string>, excluded: bool)
    ensures written ==
      (if end != "A" then Entries(Exported(senseContigs, |senseContigs|, senseComplementary, fixed)) else [])
      + (if end != "S" then Entries(Exported(antisenseContigs, |antisenseContigs|, antisenseComplementary, fixed)) else [])
    ensures excluded <==> written == []
  {
    var aCount, sCount := 0, 0;
    var w1, w2 := [], [];
    if end != "A" {
      w1, aCount := ExportEnd(senseContigs, senseComplementary, fixed);
    }
    if end != "S" {
      w2, sCount := ExportEnd(antisenseContigs, antisenseComplementary, fixed);
    }
    EntriesEmpty(Exported(senseContigs, |senseContigs|, senseComplementary, fixed));
    EntriesEmpty(Exported(antisenseContigs, |antisenseContigs|, antisenseComplementary, fixed));
    written := w1 + w2;
    excluded := aCount == 0 && sCount == 0;
  }

  /** exportSequencesAdv for one annotation, from its sense and antisense
      contigs and its row (start and strand): the lines written, and whether
      the annotation is recorded in excludedAnnos.  It is recorded exactly
      when nothing is written for it. */
  method ExportAnnotation(sense: seq<Contig>, anti: seq<Contig>, strandText: string, alignStart: int, o: Options)
    returns (written: seq<string>, excluded: bool)
    requires strandText != ""
    ensures written == AnnotationOutput(sense, anti, strandText[0], alignStart, o)
    ensures excluded <==> written == []
  {
    var strand := [strandText[0]];
    var (antisenseComplementary, senseComplementary) := ComplementFlags(o.orientation, strand);
    var senseContigs, antisenseContigs := SelectContigs(sense, anti, alignStart, o);
    if o.fixed == 0 && o.equal > 0 {
      if |senseContigs| == 0 {
        written, excluded := [], true;
      } else {
        written, excluded := ExportPairs(senseContigs, antisenseContigs, senseComplementary, antisenseComplementary);
        PairsOutputEmpty(senseContigs, antisenseContigs, senseComplementary, antisenseComplementary);
      }
    } else {
      written, excluded := ExportEnds(senseContigs, antisenseContigs, senseComplementary, antisenseComplementary, o.end, o.fixed);
    }
  }
}
