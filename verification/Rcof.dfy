/** Daily consolidation of receipts (types 39 and 41) and the compression of
    their folios into ranges. */
module Rcof {
  import opened Wrappers
  import opened Sequences
  import opened RequestStates

  datatype Range = Range(start: int, end: int)

  // ------------------------------------------------------------ compression

  /** Ranges of consecutive folios, in order of appearance. */
  function Ranges(folios: seq<int>): seq<Range> {
    if folios == [] then []
    else
      var rs, f := Ranges(folios[..|folios| - 1]), folios[|folios| - 1];
      if rs != [] && f == rs[|rs| - 1].end + 1 then rs[..|rs| - 1] + [Range(rs[|rs| - 1].start, f)]
      else rs + [Range(f, f)]
  }

  method FolioRanges(sortedFolios: seq<int>) returns (ranges: seq<Range>)
    ensures ranges == Ranges(sortedFolios)
  {
    ranges := [];
    var start: Option<int>, prev: Option<int> := None, None;
    for i := 0 to |sortedFolios|
      invariant start.Some? == prev.Some? == (i > 0)
      invariant Ranges(sortedFolios[..i]) == ranges + (if i > 0 then [Range(start.value, prev.value)] else [])
    {
      var folio := sortedFolios[i];
      assert sortedFolios[..i + 1][..i] == sortedFolios[..i];
      if start.None? {
        start := Some(folio);
      } else if prev.Some? && folio != prev.value + 1 {
        ranges := ranges + [Range(start.value, prev.value)];
        start := Some(folio);
      }
      prev := Some(folio);
    }
    assert sortedFolios[..|sortedFolios|] == sortedFolios;
    if start.Some? && prev.Some? {
      ranges := ranges + [Range(start.value, prev.value)];
    }
  }

  function Expand(ranges: seq<Range>): seq<int> {
    if ranges == [] then []
    else Expand(ranges[..|ranges| - 1]) + Interval(ranges[|ranges| - 1].start, ranges[|ranges| - 1].end)
  }

  ghost predicate Proper(ranges: seq<Range>) { forall i :: 0 <= i < |ranges| ==> ranges[i].start <= ranges[i].end }

  lemma ExpandLast(ranges: seq<Range>, r: Range)
    ensures Expand(ranges + [r]) == Expand(ranges) + Interval(r.start, r.end)
  {
    assert (ranges + [r])[..|ranges|] == ranges;
  }

  lemma ExtendLast(ranges: seq<Range>, f: int)
    requires ranges != [] && ranges[|ranges| - 1].start < f && ranges[|ranges| - 1].end == f - 1
    ensures Expand(ranges[..|ranges| - 1] + [Range(ranges[|ranges| - 1].start, f)]) == Expand(ranges) + [f]
  {
    hide Expand;
    var init, last := ranges[..|ranges| - 1], ranges[|ranges| - 1];
    ExpandLast(init, Range(last.start, f));
    ExpandLast(init, last);
    assert ranges == init + [last];
    assert Expand(init) + (Interval(last.start, f - 1) + [f]) == Expand(init) + Interval(last.start, f - 1) + [f];
  }

  lemma {:induction false} RangesProper(folios: seq<int>)
    ensures Proper(Ranges(folios))
    ensures folios != [] ==> Ranges(folios) != [] && Ranges(folios)[|Ranges(folios)| - 1].end == folios[|folios| - 1]
  {
    if folios != [] { RangesProper(folios[..|folios| - 1]); }
  }

  /** Compression is lossless: expanding the ranges gives back the folios, whatever their order. */
  lemma {:induction false} ExpandRanges(folios: seq<int>)
    ensures Expand(Ranges(folios)) == folios
  {
    if folios != [] {
      var init, f := folios[..|folios| - 1], folios[|folios| - 1];
      ExpandRanges(init);
      RangesProper(init);
      assert folios == init + [f];
      var rs := Ranges(init);
      if rs != [] && f == rs[|rs| - 1].end + 1 {
        ExtendLast(rs, f);
      } else {
        ExpandLast(rs, Range(f, f));
        assert Interval(f, f) == [f];
      }
    }
  }

  function Size(r: Range): nat { if r.start <= r.end then r.end - r.start + 1 else 0 }

  function TotalSize(ranges: seq<Range>): nat {
    if ranges == [] then 0 else TotalSize(ranges[..|ranges| - 1]) + Size(ranges[|ranges| - 1])
  }

  lemma {:induction false} SizesAddUp(ranges: seq<Range>)
    ensures TotalSize(ranges) == |Expand(ranges)|
  {
    if ranges != [] {
      SizesAddUp(ranges[..|ranges| - 1]);
      IntervalLength(ranges[|ranges| - 1].start, ranges[|ranges| - 1].end);
    }
  }

  // -------------------------------------------------------------- optimality

  ghost predicate Increasing(folios: seq<int>) { forall i, j :: 0 <= i < j < |folios| ==> folios[i] < folios[j] }

  /** Between two neighbouring ranges at least one folio is missing. */
  ghost predicate Gaps(ranges: seq<Range>) {
    forall i, j :: 0 <= i < j < |ranges| ==> ranges[i].end + 1 < ranges[j].start
  }

  /** In a gap-separated list the last range ends last. */
  lemma LastEndsLast(ranges: seq<Range>, i: nat)
    requires Gaps(ranges) && Proper(ranges) && i < |ranges|
    ensures ranges[i].end <= ranges[|ranges| - 1].end
  {}

  lemma GapsExtend(ranges: seq<Range>, f: int)
    requires Gaps(ranges) && Proper(ranges) && (ranges != [] ==> ranges[|ranges| - 1].end < f)
    ensures Gaps(if ranges != [] && f == ranges[|ranges| - 1].end + 1 then
                   ranges[..|ranges| - 1] + [Range(ranges[|ranges| - 1].start, f)]
                 else ranges + [Range(f, f)])
  {
    forall i: nat | i < |ranges| ensures ranges[i].end <= ranges[|ranges| - 1].end { LastEndsLast(ranges, i); }
  }

  lemma {:induction false} RangesHaveGaps(folios: seq<int>)
    requires Increasing(folios)
    ensures Gaps(Ranges(folios))
  {
    if folios != [] {
      var init, f := folios[..|folios| - 1], folios[|folios| - 1];
      RangesHaveGaps(init);
      RangesProper(init);
      GapsExtend(Ranges(init), f);
    }
  }

  predicate Covers(ranges: seq<Range>, f: int) {
    exists i :: 0 <= i < |ranges| && ranges[i].start <= f <= ranges[i].end
  }

  lemma {:induction false} ExpandMembers(ranges: seq<Range>, f: int)
    ensures f in Expand(ranges) <==> Covers(ranges, f)
  {
    if ranges != [] {
      var init, last := ranges[..|ranges| - 1], ranges[|ranges| - 1];
      ExpandMembers(init, f);
      IntervalMembers(last.start, last.end, f);
      if Covers(init, f) {
        var i :| 0 <= i < |init| && init[i].start <= f <= init[i].end;
        assert ranges[i].start <= f <= ranges[i].end;
      }
      if last.start <= f <= last.end { assert ranges[|ranges| - 1].start <= f <= ranges[|ranges| - 1].end; }
      if Covers(ranges, f) && !(last.start <= f <= last.end) {
        var i :| 0 <= i < |ranges| && ranges[i].start <= f <= ranges[i].end;
        assert init[i].start <= f <= init[i].end;
      }
    }
  }

  function Starts(ranges: seq<Range>): set<int> { set i | 0 <= i < |ranges| :: ranges[i].start }

  lemma {:induction false} StartsBound(ranges: seq<Range>)
    ensures |Starts(ranges)| <= |ranges|
  {
    if ranges != [] {
      StartsBound(ranges[..|ranges| - 1]);
      assert Starts(ranges) == Starts(ranges[..|ranges| - 1]) + {ranges[|ranges| - 1].start};
    }
  }

  lemma {:induction false} StartsDistinct(ranges: seq<Range>)
    requires Gaps(ranges) && Proper(ranges)
    ensures |Starts(ranges)| == |ranges|
  {
    if ranges != [] {
      var init, last := ranges[..|ranges| - 1], ranges[|ranges| - 1];
      StartsDistinct(init);
      assert Starts(ranges) == Starts(init) + {last.start};
      assert last.start !in Starts(init);
    }
  }

  lemma NoneJustBefore(ranges: seq<Range>, i: nat)
    requires Gaps(ranges) && Proper(ranges) && i < |ranges|
    ensures !Covers(ranges, ranges[i].start - 1)
  {}

  /** In any other list covering the same folios, some range starts where a range of a gap-separated list starts. */
  lemma StartIsForced(ranges: seq<Range>, other: seq<Range>, i: nat)
    requires Gaps(ranges) && Proper(ranges) && i < |ranges|
    requires forall f :: Covers(other, f) <==> Covers(ranges, f)
    ensures ranges[i].start in Starts(other)
  {
    var f := ranges[i].start;
    assert Covers(ranges, f);
    var j :| 0 <= j < |other| && other[j].start <= f <= other[j].end;
    NoneJustBefore(ranges, i);
    assert !Covers(other, f - 1);
  }

  /** For strictly increasing folios no shorter list of ranges covers exactly the same folios. */
  lemma RangesAreMinimal(folios: seq<int>, other: seq<Range>)
    requires Increasing(folios)
    requires forall f :: Covers(other, f) <==> f in folios
    ensures |Ranges(folios)| <= |other|
  {
    var ranges := Ranges(folios);
    RangesHaveGaps(folios);
    RangesProper(folios);
    ExpandRanges(folios);
    forall f ensures Covers(other, f) <==> Covers(ranges, f) { ExpandMembers(ranges, f); }
    forall i | 0 <= i < |ranges| ensures ranges[i].start in Starts(other) { StartIsForced(ranges, other, i); }
    assert Starts(ranges) <= Starts(other);
    StartsDistinct(ranges);
    StartsBound(other);
    SubsetSize(Starts(ranges), Starts(other));
  }

  lemma SubsetSize(a: set<int>, b: set<int>)
    requires a <= b
    ensures |a| <= |b|
  {
    assert b * a == a;
    assert |b - a| == |b| - |b * a|;
  }

  // ------------------------------------------------------------ consolidation

  /** A stored document as the consolidation reads it; amounts are those of its XML. */
  datatype Receipt = Receipt(typ: int, status: DteStatus, folio: int, issueDate: Option<string>,
                             net: int, iva: int, exempt: int, total: int)

  datatype Summary = Summary(typ: int, netAmount: int, ivaAmount: int, exemptAmount: int, totalAmount: int,
                             foliosEmitidos: nat, foliosAnulados: nat, foliosUtilizados: nat, ranges: seq<Range>)

  predicate OfDay(d: Receipt, date: string) {
    (d.typ == 39 || d.typ == 41) && d.status != Borrador && d.issueDate == Some(date)
  }

  predicate Voided(d: Receipt) { d.status == Anulado }

  predicate Live(d: Receipt) { !Voided(d) }

  function IsType(typ: int): Receipt -> bool { (d: Receipt) => d.typ == typ }

  function IsOfDay(date: string): Receipt -> bool { (d: Receipt) => OfDay(d, date) }

  function SumOf(amount: Receipt -> int, s: seq<Receipt>): int {
    if s == [] then 0 else SumOf(amount, s[..|s| - 1]) + amount(s[|s| - 1])
  }

  function FoliosOf(s: seq<Receipt>): seq<int> { seq(|s|, i requires 0 <= i < |s| => s[i].folio) }

  /** Ascending numeric sort. */
  function Insert(f: int, s: seq<int>): seq<int> {
    if s == [] || f <= s[0] then [f] + s else [s[0]] + Insert(f, s[1..])
  }

  function Sort(s: seq<int>): seq<int> {
    if s == [] then [] else Insert(s[0], Sort(s[1..]))
  }

  function OfType(documents: seq<Receipt>, date: string, typ: int): seq<Receipt> {
    Filter(IsType(typ), Filter(IsOfDay(date), documents))
  }

  function Active(documents: seq<Receipt>, date: string, typ: int): seq<int> {
    Sort(FoliosOf(Filter(Live, OfType(documents, date, typ))))
  }

  function SummaryOf(documents: seq<Receipt>, date: string, typ: int): Summary {
    var byType := OfType(documents, date, typ);
    var active := Active(documents, date, typ);
    Summary(typ, SumOf((d: Receipt) => d.net, byType), SumOf((d: Receipt) => d.iva, byType),
            SumOf((d: Receipt) => d.exempt, byType), SumOf((d: Receipt) => d.total, byType),
            |byType|, |Filter(Voided, byType)|, |active|, Ranges(active))
  }

  /** One summary per type that has receipts that day, 39 first. */
  function ConsolidateDay(documents: seq<Receipt>, date: string): seq<Summary> {
    (if OfType(documents, date, 39) == [] then [] else [SummaryOf(documents, date, 39)])
    + (if OfType(documents, date, 41) == [] then [] else [SummaryOf(documents, date, 41)])
  }

  ghost predicate Ascending(s: seq<int>) { forall i, j :: 0 <= i < j < |s| ==> s[i] <= s[j] }

  lemma {:induction false} InsertKeepsAll(f: int, s: seq<int>)
    ensures multiset(Insert(f, s)) == multiset(s) + multiset{f}
  {
    if s == [] || f <= s[0] {
      assert multiset([f] + s) == multiset{f} + multiset(s);
    } else {
      InsertKeepsAll(f, s[1..]);
      assert s == [s[0]] + s[1..];
    }
  }

  lemma {:induction false} InsertAscends(f: int, s: seq<int>)
    requires Ascending(s)
    ensures Ascending(Insert(f, s))
  {
    if s != [] && s[0] < f {
      InsertAscends(f, s[1..]);
      InsertKeepsAll(f, s[1..]);
      var t := Insert(f, s[1..]);
      forall i | 0 <= i < |t| ensures s[0] <= t[i] {
        assert t[i] in multiset(t);
        assert t[i] == f || t[i] in s[1..];
      }
    }
  }

  lemma {:induction false} SortFacts(s: seq<int>)
    ensures multiset(Sort(s)) == multiset(s) && Ascending(Sort(s))
  {
    if s != [] {
      SortFacts(s[1..]);
      InsertKeepsAll(s[0], Sort(s[1..]));
      InsertAscends(s[0], Sort(s[1..]));
      assert s == [s[0]] + s[1..];
    }
  }

  lemma {:induction false} SplitByStatus(s: seq<Receipt>)
    ensures |Filter(Live, s)| + |Filter(Voided, s)| == |s|
  {
    if s != [] { SplitByStatus(s[..|s| - 1]); }
  }

  lemma SameSize(a: seq<int>, b: seq<int>)
    requires multiset(a) == multiset(b)
    ensures |a| == |b|
  {
    assert |multiset(a)| == |a|;
  }

  /** Range sizes add up to the used folios, which are the issued ones minus the voided ones. */
  lemma FoliosBalance(documents: seq<Receipt>, date: string, typ: int)
    ensures var s := SummaryOf(documents, date, typ);
            && TotalSize(s.ranges) == s.foliosUtilizados == s.foliosEmitidos - s.foliosAnulados
            && multiset(Expand(s.ranges))
               == multiset(FoliosOf(Filter(Live, OfType(documents, date, typ))))
  {
    var active := FoliosOf(Filter(Live, OfType(documents, date, typ)));
    SortFacts(active);
    SameSize(Sort(active), active);
    SplitByStatus(OfType(documents, date, typ));
    ExpandRanges(Sort(active));
    SizesAddUp(Ranges(Sort(active)));
  }

  /** No two documents share type and folio, as the allocator guarantees. */
  ghost predicate DistinctFolios(documents: seq<Receipt>) {
    forall i, j :: 0 <= i < j < |documents| ==>
      (documents[i].typ, documents[i].folio) != (documents[j].typ, documents[j].folio)
  }

  lemma DistinctFilter(keep: Receipt -> bool, s: seq<Receipt>)
    requires DistinctFolios(s)
    ensures DistinctFolios(Filter(keep, s)) && forall i :: 0 <= i < |Filter(keep, s)| ==> keep(Filter(keep, s)[i])
  {
    var at := FilterKeepsOrder(keep, s);
  }

  ghost predicate Distinct(s: seq<int>) { forall i, j :: 0 <= i < j < |s| ==> s[i] != s[j] }

  lemma TwiceCounts(t: seq<int>, i: nat, j: nat)
    requires i < j < |t| && t[i] == t[j]
    ensures multiset(t)[t[i]] >= 2
  {
    assert t == t[..j] + t[j..];
    assert t[i] in t[..j] && t[j] in t[j..];
  }

  lemma SortedDistinct(s: seq<int>)
    requires Distinct(s)
    ensures Increasing(Sort(s))
  {
    SortFacts(s);
    var t := Sort(s);
    forall i, j | 0 <= i < j < |t| ensures t[i] < t[j] {
      if t[i] == t[j] {
        TwiceCounts(t, i, j);
        OnceInDistinct(s, t[i]);
      }
    }
  }

  lemma {:induction false} OnceInDistinct(s: seq<int>, x: int)
    requires Distinct(s)
    ensures multiset(s)[x] <= 1
  {
    if s != [] {
      OnceInDistinct(s[1..], x);
      assert s == [s[0]] + s[1..];
      if s[0] == x { assert x !in s[1..]; }
    }
  }

  /** With distinct folios the reported ranges are gap-separated and as few as possible. */
  lemma ReportedRangesAreMinimal(documents: seq<Receipt>, date: string, typ: int, other: seq<Range>)
    requires DistinctFolios(documents)
    requires forall f :: Covers(other, f) <==> f in Active(documents, date, typ)
    ensures Gaps(SummaryOf(documents, date, typ).ranges)
    ensures |SummaryOf(documents, date, typ).ranges| <= |other|
  {
    var day := Filter(IsOfDay(date), documents);
    DistinctFilter(IsOfDay(date), documents);
    DistinctFilter(IsType(typ), day);
    var byType := OfType(documents, date, typ);
    assert forall i :: 0 <= i < |byType| ==> byType[i].typ == typ;
    DistinctFilter(Live, byType);
    SameTypeFilter(byType, typ);
    var active := FoliosOf(Filter(Live, byType));
    SortedDistinct(active);
    RangesHaveGaps(Sort(active));
    RangesAreMinimal(Sort(active), other);
  }

  lemma SameTypeFilter(s: seq<Receipt>, typ: int)
    requires forall i :: 0 <= i < |s| ==> s[i].typ == typ
    requires DistinctFolios(Filter(Live, s))
    ensures Distinct(FoliosOf(Filter(Live, s)))
  {
    var kept := Filter(Live, s);
    var at := FilterKeepsOrder(Live, s);
    forall i, j | 0 <= i < j < |kept| ensures kept[i].folio != kept[j].folio {
      assert kept[i].typ == typ && kept[j].typ == typ;
      assert (kept[i].typ, kept[i].folio) != (kept[j].typ, kept[j].folio);
    }
  }

  function Emitted(summaries: seq<Summary>): nat {
    if summaries == [] then 0 else Emitted(summaries[..|summaries| - 1]) + summaries[|summaries| - 1].foliosEmitidos
  }

  lemma {:induction false} SplitByType(s: seq<Receipt>)
    requires forall i :: 0 <= i < |s| ==> s[i].typ == 39 || s[i].typ == 41
    ensures |Filter(IsType(39), s)| + |Filter(IsType(41), s)| == |s|
  {
    if s != [] { SplitByType(s[..|s| - 1]); }
  }

  /** The report counts every receipt of the day once, and is empty only when there is none. */
  lemma ReportIsComplete(documents: seq<Receipt>, date: string)
    ensures Emitted(ConsolidateDay(documents, date)) == |Filter(IsOfDay(date), documents)|
    ensures ConsolidateDay(documents, date) == [] <==> Filter(IsOfDay(date), documents) == []
  {
    hide SummaryOf, Emitted, Filter;
    var day := Filter(IsOfDay(date), documents);
    var at := FilterKeepsOrder(IsOfDay(date), documents);
    assert forall i :: 0 <= i < |day| ==> OfDay(day[i], date);
    SplitByType(day);
    var one, two := SummaryOf(documents, date, 39), SummaryOf(documents, date, 41);
    EmittedConcat(if OfType(documents, date, 39) == [] then [] else [one],
                  if OfType(documents, date, 41) == [] then [] else [two]);
    EmittedOne(one);
    EmittedOne(two);
    SummaryCounts(documents, date, 39);
    SummaryCounts(documents, date, 41);
  }

  lemma EmittedOne(x: Summary)
    ensures Emitted([x]) == x.foliosEmitidos && Emitted([]) == 0
  {
    assert [x][..0] == [];
  }

  lemma SummaryCounts(documents: seq<Receipt>, date: string, typ: int)
    ensures SummaryOf(documents, date, typ).foliosEmitidos == |OfType(documents, date, typ)|
  {
    hide Filter, SumOf, Active, Ranges;
  }

  lemma {:induction false} EmittedConcat(a: seq<Summary>, b: seq<Summary>)
    ensures Emitted(a + b) == Emitted(a) + Emitted(b)
  {
    if b == [] {
      assert a + b == a;
    } else {
      EmittedConcat(a, b[..|b| - 1]);
      assert (a + b)[..|a + b| - 1] == a + b[..|b| - 1];
    }
  }
}
