/** The folio stock report, which counts issued documents instead of reading
    the allocator's marks, and its agreement with the allocator. */
module FolioStatus {
  import opened Wrappers
  import opened Sequences
  import opened Rounding
  import opened FolioLedger
  import opened LedgerTheorems

  datatype Alert = Healthy | Warning | Critical

  datatype Status = Status(typ: int, hasCaf: bool, totalAuthorized: int, utilized: int, remaining: int,
                           alert: Alert, threshold: int)

  const ACTIVE_TYPES: seq<int> := [33, 34, 39, 41, 46, 52, 56, 61]

  /** Documents (type, folio) inside a CAF's range. */
  function CountIn(docs: seq<(int, int)>, c: Caf): nat {
    if docs == [] then 0
    else CountIn(docs[..|docs| - 1], c)
         + (if FolioAllowed(c, docs[|docs| - 1].0, docs[|docs| - 1].1) then 1 else 0)
  }

  function Utilized(cafs: seq<Caf>, docs: seq<(int, int)>, t: int): nat {
    if cafs == [] then 0
    else Utilized(cafs[..|cafs| - 1], docs, t)
         + (if cafs[|cafs| - 1].typ == t then CountIn(docs, cafs[|cafs| - 1]) else 0)
  }

  function AlertFor(total: int, remaining: int, threshold: real): Alert {
    var ratio := if total > 0 then remaining as real / total as real else 0.0;
    if remaining <= 0 then Critical
    else if ratio <= 0.05 then Critical
    else if ratio <= threshold then Warning
    else Healthy
  }

  function StatusOf(cafs: seq<Caf>, docs: seq<(int, int)>, thresholds: map<int, real>, t: int): Status {
    if !HasType(cafs, t) then Status(t, false, 0, 0, 0, Critical, 20)
    else
      var total := Authorized(cafs, t);
      var used := Utilized(cafs, docs, t);
      var threshold := if t in thresholds then thresholds[t] else 0.20;
      Status(t, true, total, used, total - used, AlertFor(total, total - used, threshold), Round(threshold * 100.0))
  }

  method GetFolioStatus(cafs: seq<Caf>, docs: seq<(int, int)>, thresholds: map<int, real>) returns (result: seq<Status>)
    ensures |result| == |ACTIVE_TYPES|
    ensures forall k :: 0 <= k < |result| ==> result[k] == StatusOf(cafs, docs, thresholds, ACTIVE_TYPES[k])
  {
    result := [];
    for k := 0 to |ACTIVE_TYPES|
      invariant |result| == k
      invariant forall j :: 0 <= j < k ==> result[j] == StatusOf(cafs, docs, thresholds, ACTIVE_TYPES[j])
    {
      var t := ACTIVE_TYPES[k];
      var total, used, matching := 0, 0, 0;
      for i := 0 to |cafs|
        invariant total == Authorized(cafs[..i], t)
        invariant used == Utilized(cafs[..i], docs, t)
        invariant matching > 0 <==> HasType(cafs[..i], t)
        invariant matching >= 0
      {
        assert cafs[..i + 1][..i] == cafs[..i];
        TypeSoFar(cafs, t, i);
        if cafs[i].typ == t {
          matching := matching + 1;
          total := total + (cafs[i].rangeTo - cafs[i].rangeFrom + 1);
          var count := CountDocuments(docs, cafs[i]);
          used := used + count;
        }
      }
      assert cafs[..|cafs|] == cafs;
      if matching == 0 {
        result := result + [Status(t, false, 0, 0, 0, Critical, 20)];
      } else {
        var remaining := total - used;
        var threshold := if t in thresholds then thresholds[t] else 0.20;
        result := result
          + [Status(t, true, total, used, remaining, AlertFor(total, remaining, threshold), Round(threshold * 100.0))];
      }
    }
  }

  method CountDocuments(docs: seq<(int, int)>, c: Caf) returns (count: nat)
    ensures count == CountIn(docs, c)
  {
    count := 0;
    for i := 0 to |docs|
      invariant count == CountIn(docs[..i], c)
    {
      assert docs[..i + 1][..i] == docs[..i];
      if docs[i].0 == c.typ && docs[i].1 >= c.rangeFrom && docs[i].1 <= c.rangeTo {
        count := count + 1;
      }
    }
    assert docs[..|docs|] == docs;
  }

  lemma TypeSoFar(cafs: seq<Caf>, t: int, i: nat)
    requires i < |cafs|
    ensures HasType(cafs[..i + 1], t) <==> HasType(cafs[..i], t) || cafs[i].typ == t
  {
    if HasType(cafs[..i], t) {
      var k :| 0 <= k < i && cafs[..i][k].typ == t;
      assert cafs[..i + 1][k].typ == t;
    }
    if cafs[i].typ == t { assert cafs[..i + 1][i].typ == t; }
    if HasType(cafs[..i + 1], t) {
      var k :| 0 <= k < i + 1 && cafs[..i + 1][k].typ == t;
      if k < i { assert cafs[..i][k].typ == t; }
    }
  }

  // ----------------------------------------------------- agreement of counts

  lemma {:induction false} CountInIsLength(docs: seq<(int, int)>, c: Caf)
    ensures CountIn(docs, c) == |FoliosOf(docs, c)|
  {
    if docs != [] { CountInIsLength(docs[..|docs| - 1], c); }
  }

  lemma {:induction false} UtilizedIsUsed(cafs: seq<Caf>, docs: seq<(int, int)>, t: int)
    requires forall i :: 0 <= i < |cafs| ==>
      CafOk(cafs[i]) && FoliosOf(docs, cafs[i]) == Interval(cafs[i].rangeFrom, LastUsed(cafs[i]))
    ensures Utilized(cafs, docs, t) == Used(cafs, t)
  {
    if cafs != [] {
      var last := cafs[|cafs| - 1];
      UtilizedIsUsed(cafs[..|cafs| - 1], docs, t);
      CountInIsLength(docs, last);
      IntervalLength(last.rangeFrom, LastUsed(last));
    }
  }

  /** When the documents are the issued folios, the report's counts are the
      allocator's: utilized is what was handed out, remaining is how many more
      reservations will succeed, and nothing remains exactly on exhaustion. */
  lemma ReportAgreesWithLedger(l: Ledger, thresholds: map<int, real>, t: int)
    requires LedgerOk(l) && HasType(Cafs(l.config), t)
    requires Authorized(Cafs(l.config), t) == CountType(l.log, t) + Remaining(Cafs(l.config), t)
    ensures var r := StatusOf(Cafs(l.config), l.log, thresholds, t);
            && r.utilized == CountType(l.log, t)
            && r.remaining == Remaining(Cafs(l.config), t) >= 0
            && (r.remaining == 0 <==> Reserved(l.config, t) == Err(Exhausted))
            && (r.remaining == 0 ==> r.alert == Critical)
  {
    UtilizedIsUsed(Cafs(l.config), l.log, t);
    RemainingNonNegative(Cafs(l.config), t);
    ReserveFailsIffNoneRemain(l.config, t);
  }
}
