/** Properties of the folio allocator over every history of uploads and
    reservations: uniqueness, interval shape, conservation and completeness. */
module LedgerTheorems {
  import opened Wrappers
  import opened Sequences
  import opened FolioLedger

  datatype Event = Upload(p: ParsedCaf) | Reserve(t: int)

  /** Configuration together with the log of (type, folio) pairs handed out. */
  datatype Ledger = Ledger(config: Config, log: seq<(int, int)>)

  function Next(l: Ledger, e: Event): Ledger {
    match e
    case Upload(p) =>
      if !WellFormed(p) then l
      else (match Uploaded(Cafs(l.config), p)
            case Ok(cafs) => l.(config := Config(cafs))
            case Err(_) => l)
    case Reserve(t) =>
      match Reserved(l.config, t)
      case Ok((config, folio)) => Ledger(config, l.log + [(t, folio)])
      case Err(_) => l
  }

  function Run(events: seq<Event>): Ledger {
    if events == [] then Ledger(Missing, [])
    else Next(Run(events[..|events| - 1]), events[|events| - 1])
  }

  ghost predicate CafOk(c: Caf) {
    1 <= c.rangeFrom <= c.rangeTo && c.rangeFrom - 1 <= LastUsed(c) <= c.rangeTo
  }

  ghost predicate Disjoint(c: Caf, d: Caf) {
    c.typ != d.typ || c.rangeTo < d.rangeFrom || d.rangeTo < c.rangeFrom
  }

  ghost predicate Valid(cafs: seq<Caf>) {
    && (forall i :: 0 <= i < |cafs| ==> CafOk(cafs[i]))
    && (forall i, j :: 0 <= i < j < |cafs| ==> Disjoint(cafs[i], cafs[j]))
  }

  /** The folios of the log that fall in a CAF's range, in the order they were issued. */
  function FoliosOf(log: seq<(int, int)>, c: Caf): seq<int> {
    if log == [] then [] else
      var e := log[|log| - 1];
      FoliosOf(log[..|log| - 1], c) + (if FolioAllowed(c, e.0, e.1) then [e.1] else [])
  }

  ghost predicate NoDuplicates(log: seq<(int, int)>) {
    forall i, j :: 0 <= i < j < |log| ==> log[i] != log[j]
  }

  ghost predicate Covered(cafs: seq<Caf>, e: (int, int)) {
    exists i :: 0 <= i < |cafs| && FolioAllowed(cafs[i], e.0, e.1)
  }

  /** What every reachable ledger satisfies. */
  ghost predicate LedgerOk(l: Ledger) {
    var cafs := Cafs(l.config);
    && Valid(cafs)
    && (forall i :: 0 <= i < |cafs| ==> FoliosOf(l.log, cafs[i]) == Interval(cafs[i].rangeFrom, LastUsed(cafs[i])))
    && (forall k :: 0 <= k < |l.log| ==> Covered(cafs, l.log[k]))
    && NoDuplicates(l.log)
  }

  // ---------------------------------------------------------------- filters

  lemma {:induction false} FilterKeepsValid(keep: Caf -> bool, cafs: seq<Caf>)
    requires Valid(cafs)
    ensures Valid(Filter(keep, cafs))
  {
    if cafs != [] {
      var init := cafs[..|cafs| - 1];
      FilterKeepsValid(keep, init);
      FilterMembers(keep, init);
      var kept := Filter(keep, init);
      forall i | 0 <= i < |kept| ensures Disjoint(kept[i], cafs[|cafs| - 1]) {
        assert kept[i] in init;
      }
    }
  }

  // ----------------------------------------------------- issued folio lists

  lemma {:induction false} FoliosOfMembers(log: seq<(int, int)>, c: Caf, folio: int)
    ensures folio in FoliosOf(log, c) <==> (c.typ, folio) in log && FolioAllowed(c, c.typ, folio)
  {
    if log != [] {
      var init := log[..|log| - 1];
      FoliosOfMembers(init, c, folio);
      assert log == init + [log[|log| - 1]];
    }
  }

  lemma {:induction false} FoliosOfSameRange(log: seq<(int, int)>, c: Caf, d: Caf)
    requires c.typ == d.typ && c.rangeFrom == d.rangeFrom && c.rangeTo == d.rangeTo
    ensures FoliosOf(log, c) == FoliosOf(log, d)
  {
    if log != [] { FoliosOfSameRange(log[..|log| - 1], c, d); }
  }

  /** The pair was handed out exactly when some CAF's used prefix holds it. */
  lemma LoggedIffUsed(l: Ledger, t: int, folio: int)
    requires LedgerOk(l)
    ensures (t, folio) in l.log <==> Issued(Cafs(l.config), t, folio)
  {
    var cafs := Cafs(l.config);
    if (t, folio) in l.log {
      var k :| 0 <= k < |l.log| && l.log[k] == (t, folio);
      assert Covered(cafs, l.log[k]);
      var i :| 0 <= i < |cafs| && FolioAllowed(cafs[i], t, folio);
      FoliosOfMembers(l.log, cafs[i], folio);
      IntervalMembers(cafs[i].rangeFrom, LastUsed(cafs[i]), folio);
    }
    if Issued(cafs, t, folio) {
      var i :| 0 <= i < |cafs| && cafs[i].typ == t && cafs[i].rangeFrom <= folio <= LastUsed(cafs[i]);
      FoliosOfMembers(l.log, cafs[i], folio);
      IntervalMembers(cafs[i].rangeFrom, LastUsed(cafs[i]), folio);
    }
  }

  /** A folio inside the used prefix of a CAF of the type. */
  ghost predicate Issued(cafs: seq<Caf>, t: int, folio: int) {
    exists i :: 0 <= i < |cafs| && cafs[i].typ == t && cafs[i].rangeFrom <= folio <= LastUsed(cafs[i])
  }

  // ---------------------------------------------------------------- uploads

  lemma TwoOverlapsClash(overlaps: seq<Caf>, p: ParsedCaf)
    requires |overlaps| > 1 && Valid(overlaps) && WellFormed(p)
    requires forall d :: d in overlaps ==> Overlaps(d, p)
    ensures exists k ::
              0 <= k < |overlaps| && (overlaps[k].rangeFrom != p.rangeFrom || overlaps[k].rangeTo != p.rangeTo)
  {
    assert Disjoint(overlaps[0], overlaps[1]) && overlaps[0] in overlaps && overlaps[1] in overlaps;
  }

  /** A valid ledger has at most one CAF overlapping an accepted file, and it has the same range. */
  lemma AcceptedOverlap(cafs: seq<Caf>, p: ParsedCaf, c: Caf)
    requires Valid(cafs) && WellFormed(p) && Uploaded(cafs, p).Ok? && c in cafs && Overlaps(c, p)
    ensures c.rangeFrom == p.rangeFrom && c.rangeTo == p.rangeTo
    ensures Filter((d: Caf) => Overlaps(d, p), cafs) == [c]
  {
    var over := (d: Caf) => Overlaps(d, p);
    var overlaps := Filter(over, cafs);
    FilterMembers(over, cafs);
    FilterKeepsValid(over, cafs);
    var k :| 0 <= k < |overlaps| && overlaps[k] == c;
    if |overlaps| > 1 {
      TwoOverlapsClash(overlaps, p);
      assert false;
    }
  }

  lemma UploadedUsed(cafs: seq<Caf>, p: ParsedCaf)
    requires Valid(cafs) && WellFormed(p) && Uploaded(cafs, p).Ok?
    ensures var added := Uploaded(cafs, p).value[|Uploaded(cafs, p).value| - 1];
            && (forall c :: c in cafs && Overlaps(c, p) ==> LastUsed(added) == LastUsed(c))
            && ((forall c :: c in cafs ==> !Overlaps(c, p)) ==> LastUsed(added) == p.rangeFrom - 1)
            && added.typ == p.typ && added.rangeFrom == p.rangeFrom && added.rangeTo == p.rangeTo
  {
    var over := (d: Caf) => Overlaps(d, p);
    FilterMembers(over, cafs);
    forall c | c in cafs && Overlaps(c, p)
      ensures LastUsed(Uploaded(cafs, p).value[|Uploaded(cafs, p).value| - 1]) == LastUsed(c)
    {
      AcceptedOverlap(cafs, p, c);
    }
    assert |Filter(over, cafs)| > 0 ==> Filter(over, cafs)[0] in cafs && Overlaps(Filter(over, cafs)[0], p);
  }

  /** An accepted upload keeps every used folio used and adds none. */
  lemma UploadKeepsIssued(cafs: seq<Caf>, p: ParsedCaf, t: int, folio: int)
    requires Valid(cafs) && WellFormed(p) && Uploaded(cafs, p).Ok?
    ensures Issued(Uploaded(cafs, p).value, t, folio) <==> Issued(cafs, t, folio)
  {
    var kept, added := UploadedParts(cafs, p);
    var cafs' := kept + [added];
    if Issued(cafs, t, folio) {
      var i :| 0 <= i < |cafs| && cafs[i].typ == t && cafs[i].rangeFrom <= folio <= LastUsed(cafs[i]);
      if SameSlot(cafs[i], p) {
        assert cafs'[|kept|].typ == t && cafs'[|kept|].rangeFrom <= folio <= LastUsed(cafs'[|kept|]);
      } else {
        var j :| 0 <= j < |kept| && kept[j] == cafs[i];
        assert cafs'[j] == cafs[i];
      }
    }
    if Issued(cafs', t, folio) {
      var j :| 0 <= j < |cafs'| && cafs'[j].typ == t && cafs'[j].rangeFrom <= folio <= LastUsed(cafs'[j]);
      if j < |kept| {
        assert cafs'[j] in kept;
        var i :| 0 <= i < |cafs| && cafs[i] == cafs'[j];
      } else if i :| 0 <= i < |cafs| && Overlaps(cafs[i], p) {
        assert cafs[i].rangeFrom <= folio <= LastUsed(cafs[i]);
      }
    }
  }

  lemma UploadKeepsValid(cafs: seq<Caf>, p: ParsedCaf)
    requires Valid(cafs) && WellFormed(p) && Uploaded(cafs, p).Ok?
    ensures Valid(Uploaded(cafs, p).value)
  {
    var keep := (c: Caf) => !SameSlot(c, p);
    var kept := Filter(keep, cafs);
    FilterKeepsValid(keep, cafs);
    FilterMembers(keep, cafs);
    UploadedUsed(cafs, p);
    var cafs' := Uploaded(cafs, p).value;
    var added := cafs'[|cafs'| - 1];
    assert cafs' == kept + [added];
    assert CafOk(added) by {
      if c :| c in cafs && Overlaps(c, p) { AcceptedOverlap(cafs, p, c); }
    }
    forall i | 0 <= i < |kept| ensures Disjoint(kept[i], added) {
      assert kept[i] in cafs;
      if Overlaps(kept[i], p) { AcceptedOverlap(cafs, p, kept[i]); }
    }
  }

  /** The list after an upload: the CAFs of other slots, then the uploaded one. */
  lemma UploadedParts(cafs: seq<Caf>, p: ParsedCaf) returns (kept: seq<Caf>, added: Caf)
    requires Valid(cafs) && WellFormed(p) && Uploaded(cafs, p).Ok?
    ensures Uploaded(cafs, p).value == kept + [added]
    ensures forall c :: c in kept <==> c in cafs && !SameSlot(c, p)
    ensures added.typ == p.typ && added.rangeFrom == p.rangeFrom && added.rangeTo == p.rangeTo
    ensures forall c :: c in cafs && Overlaps(c, p) ==>
              c.rangeTo == p.rangeTo && c.rangeFrom == p.rangeFrom && LastUsed(added) == LastUsed(c)
    ensures (forall c :: c in cafs ==> !Overlaps(c, p)) ==> LastUsed(added) == p.rangeFrom - 1
    ensures forall c :: c in cafs && SameSlot(c, p) ==> Overlaps(c, p)
  {
    var keep := (c: Caf) => !SameSlot(c, p);
    FilterMembers(keep, cafs);
    UploadedUsed(cafs, p);
    kept := Filter(keep, cafs);
    added := Uploaded(cafs, p).value[|kept|];
    forall c | c in cafs && Overlaps(c, p) ensures c.rangeTo == p.rangeTo && c.rangeFrom == p.rangeFrom {
      AcceptedOverlap(cafs, p, c);
    }
    forall c | c in cafs && SameSlot(c, p) ensures Overlaps(c, p) {
      var i :| 0 <= i < |cafs| && cafs[i] == c;
      assert CafOk(cafs[i]);
    }
  }

  lemma UploadKeepsLedger(l: Ledger, p: ParsedCaf)
    requires LedgerOk(l) && WellFormed(p) && Uploaded(Cafs(l.config), p).Ok?
    ensures LedgerOk(Next(l, Upload(p)))
  {
    var cafs := Cafs(l.config);
    var kept, added := UploadedParts(cafs, p);
    UploadKeepsValid(cafs, p);
    var cafs' := kept + [added];
    forall i | 0 <= i < |cafs'|
      ensures FoliosOf(l.log, cafs'[i]) == Interval(cafs'[i].rangeFrom, LastUsed(cafs'[i]))
    {
      if i < |kept| {
        assert kept[i] in kept;
        var j :| 0 <= j < |cafs| && cafs[j] == kept[i];
      } else {
        UploadedInterval(l, p, added);
      }
    }
    forall k | 0 <= k < |l.log| ensures Covered(cafs', l.log[k]) {
      assert Covered(cafs, l.log[k]);
      UploadKeepsCover(cafs, p, kept, added, l.log[k]);
    }
  }

  lemma UploadedInterval(l: Ledger, p: ParsedCaf, added: Caf)
    requires LedgerOk(l) && WellFormed(p)
    requires added.typ == p.typ && added.rangeFrom == p.rangeFrom && added.rangeTo == p.rangeTo
    requires var cafs := Cafs(l.config);
             && (forall c :: c in cafs && Overlaps(c, p) ==>
                 c.rangeTo == p.rangeTo && c.rangeFrom == p.rangeFrom && LastUsed(added) == LastUsed(c))
             && ((forall c :: c in cafs ==> !Overlaps(c, p)) ==> LastUsed(added) == p.rangeFrom - 1)
    ensures FoliosOf(l.log, added) == Interval(added.rangeFrom, LastUsed(added))
  {
    var cafs := Cafs(l.config);
    if i :| 0 <= i < |cafs| && Overlaps(cafs[i], p) {
      FoliosOfSameRange(l.log, cafs[i], added);
    } else {
      if |FoliosOf(l.log, added)| > 0 {
        FreshRangeUnused(l, p, added, FoliosOf(l.log, added)[0]);
        assert false;
      }
    }
  }

  lemma UploadKeepsCover(cafs: seq<Caf>, p: ParsedCaf, kept: seq<Caf>, added: Caf, e: (int, int))
    requires Covered(cafs, e)
    requires forall c :: c in kept <==> c in cafs && !SameSlot(c, p)
    requires forall c :: c in cafs && SameSlot(c, p) ==> c.rangeTo == p.rangeTo
    requires added.typ == p.typ && added.rangeFrom == p.rangeFrom && added.rangeTo == p.rangeTo
    ensures Covered(kept + [added], e)
  {
    var i :| 0 <= i < |cafs| && FolioAllowed(cafs[i], e.0, e.1);
    if SameSlot(cafs[i], p) {
      assert FolioAllowed((kept + [added])[|kept|], e.0, e.1);
    } else {
      var j :| 0 <= j < |kept| && kept[j] == cafs[i];
      assert (kept + [added])[j] == cafs[i];
    }
  }

  lemma FreshRangeUnused(l: Ledger, p: ParsedCaf, added: Caf, f: int)
    requires LedgerOk(l) && WellFormed(p)
    requires forall c :: c in Cafs(l.config) ==> !Overlaps(c, p)
    requires added.typ == p.typ && added.rangeFrom == p.rangeFrom && added.rangeTo == p.rangeTo
    ensures f !in FoliosOf(l.log, added)
  {
    FoliosOfMembers(l.log, added, f);
    if f in FoliosOf(l.log, added) {
      LoggedIffUsed(l, added.typ, f);
      var cafs := Cafs(l.config);
      var i :| 0 <= i < |cafs| && cafs[i].typ == added.typ && cafs[i].rangeFrom <= f <= LastUsed(cafs[i]);
      assert cafs[i] in cafs && Overlaps(cafs[i], p);
    }
  }

  // ----------------------------------------------------------- reservations

  /** A reservation moves one CAF's mark by one: the pair it returns is the only new one. */
  lemma ReserveIssuesOne(config: Config, t: int, u: int, folio: int)
    requires Valid(Cafs(config)) && Reserved(config, t).Ok?
    ensures var (config', f) := Reserved(config, t).value;
            && !Issued(Cafs(config), t, f)
            && (Issued(Cafs(config'), u, folio) <==> Issued(Cafs(config), u, folio) || (u, folio) == (t, f))
  {
    var cafs := Cafs(config);
    var (config', f) := Reserved(config, t).value;
    var i := FirstAvailable(cafs, t);
    var cafs' := Cafs(config');
    assert forall j :: 0 <= j < |cafs| && cafs[j].typ == t ==> !(cafs[j].rangeFrom <= f <= LastUsed(cafs[j]));
    if Issued(cafs, u, folio) {
      var j :| 0 <= j < |cafs| && cafs[j].typ == u && cafs[j].rangeFrom <= folio <= LastUsed(cafs[j]);
      assert cafs'[j].typ == u && cafs'[j].rangeFrom <= folio <= LastUsed(cafs'[j]);
    }
    if (u, folio) == (t, f) {
      assert cafs'[i].typ == u && cafs'[i].rangeFrom <= folio <= LastUsed(cafs'[i]);
    }
  }

  lemma ReserveKeepsValid(config: Config, t: int)
    requires Valid(Cafs(config)) && Reserved(config, t).Ok?
    ensures Valid(Cafs(Reserved(config, t).value.0))
  {
    var cafs := Cafs(config);
    var i := FirstAvailable(cafs, t);
    var cafs' := Advanced(cafs, i);
    forall a, b | 0 <= a < b < |cafs'| ensures Disjoint(cafs'[a], cafs'[b]) {
      assert Disjoint(cafs[a], cafs[b]);
    }
  }

  lemma FoliosOfLogged(log: seq<(int, int)>, e: (int, int), c: Caf)
    ensures FoliosOf(log + [e], c) == FoliosOf(log, c) + (if FolioAllowed(c, e.0, e.1) then [e.1] else [])
  {
    assert (log + [e])[..|log|] == log;
  }

  /** Among disjoint CAFs only the one a folio is taken from covers it. */
  lemma OnlyGiverCovers(cafs: seq<Caf>, t: int, i: nat, j: nat, f: int)
    requires Valid(cafs) && i < |cafs| && j < |cafs| && FolioAllowed(cafs[i], t, f)
    ensures FolioAllowed(cafs[j], t, f) <==> i == j
  {
    if i < j { assert Disjoint(cafs[i], cafs[j]); } else if j < i { assert Disjoint(cafs[j], cafs[i]); }
  }

  lemma ReserveGives(config: Config, t: int) returns (i: nat)
    requires Reserved(config, t).Ok?
    ensures var cafs, (config', f) := Cafs(config), Reserved(config, t).value;
            && i < |cafs| && Available(cafs[i], t) && Cafs(config') == Advanced(cafs, i) && f == LastUsed(cafs[i]) + 1
  {
    i := FirstAvailable(Cafs(config), t);
  }

  /** Each CAF's logged folios still fill its interval: one more in the CAF that gave the folio, the same elsewhere. */
  lemma ReserveKeepsIntervals(l: Ledger, t: int, j: nat)
    requires LedgerOk(l) && Reserved(l.config, t).Ok? && j < |Cafs(l.config)|
    ensures var l' := Next(l, Reserve(t)); var cafs' := Cafs(l'.config);
            && |cafs'| == |Cafs(l.config)|
            && FoliosOf(l'.log, cafs'[j]) == Interval(cafs'[j].rangeFrom, LastUsed(cafs'[j]))
  {
    hide Covered, NoDuplicates, FoliosOf, Valid, Reserved, HasType;
    var cafs, f := Cafs(l.config), Reserved(l.config, t).value.1;
    var i := ReserveGives(l.config, t);
    var c := Advanced(cafs, i)[j];
    FoliosOfSameRange(l.log, cafs[j], c);
    FoliosOfLogged(l.log, (t, f), c);
    GiverIsOk(cafs, i);
    OnlyGiverCovers(cafs, t, i, j, f);
  }

  lemma GiverIsOk(cafs: seq<Caf>, i: nat)
    requires Valid(cafs) && i < |cafs|
    ensures CafOk(cafs[i])
  {}

  lemma ReserveKeepsCovered(l: Ledger, t: int)
    requires LedgerOk(l) && Reserved(l.config, t).Ok?
    ensures var l' := Next(l, Reserve(t)); forall k :: 0 <= k < |l'.log| ==> Covered(Cafs(l'.config), l'.log[k])
  {
    hide FoliosOf, NoDuplicates;
    var cafs := Cafs(l.config);
    var l' := Next(l, Reserve(t));
    var cafs' := Cafs(l'.config);
    forall k | 0 <= k < |l'.log| ensures Covered(cafs', l'.log[k]) {
      if k < |l.log| {
        var j :| 0 <= j < |cafs| && FolioAllowed(cafs[j], l.log[k].0, l.log[k].1);
        assert FolioAllowed(cafs'[j], l'.log[k].0, l'.log[k].1);
      } else {
        assert FolioAllowed(cafs'[FirstAvailable(cafs, t)], l'.log[k].0, l'.log[k].1);
      }
    }
  }

  lemma ReserveKeepsDistinct(l: Ledger, t: int)
    requires LedgerOk(l) && Reserved(l.config, t).Ok?
    ensures NoDuplicates(Next(l, Reserve(t)).log)
  {
    hide FoliosOf, Covered, Valid;
    var f := Reserved(l.config, t).value.1;
    hide Reserved;
    ValidOf(l);
    ReserveIssuesOne(l.config, t, t, f);
    LoggedIffUsed(l, t, f);
  }

  lemma ValidOf(l: Ledger)
    requires LedgerOk(l)
    ensures Valid(Cafs(l.config))
  {}

  lemma ReserveKeepsLedger(l: Ledger, t: int)
    requires LedgerOk(l) && Reserved(l.config, t).Ok?
    ensures LedgerOk(Next(l, Reserve(t)))
  {
    hide FoliosOf, Covered, NoDuplicates, Valid;
    var l' := Next(l, Reserve(t));
    var cafs' := Cafs(l'.config);
    ReserveKeepsValid(l.config, t);
    forall j: nat | j < |cafs'| ensures FoliosOf(l'.log, cafs'[j]) == Interval(cafs'[j].rangeFrom, LastUsed(cafs'[j])) {
      ReserveKeepsIntervals(l, t, j);
    }
    ReserveKeepsCovered(l, t);
    ReserveKeepsDistinct(l, t);
  }

  /** Over any interleaving of uploads, re-uploads and reservations: no pair is
      issued twice, CAFs of a type stay disjoint, and the folios issued from each
      CAF are, in order, exactly rangeFrom..lastUsed. */
  lemma {:induction false} EveryRunKeepsLedger(events: seq<Event>)
    ensures LedgerOk(Run(events))
  {
    if events != [] {
      var l := Run(events[..|events| - 1]);
      EveryRunKeepsLedger(events[..|events| - 1]);
      match events[|events| - 1] {
        case Upload(p) =>
          if WellFormed(p) && Uploaded(Cafs(l.config), p).Ok? { UploadKeepsLedger(l, p); }
        case Reserve(t) =>
          if Reserved(l.config, t).Ok? { ReserveKeepsLedger(l, t); }
      }
    }
  }

  // ------------------------------------------- conservation and completeness

  function Authorized(cafs: seq<Caf>, t: int): int {
    if cafs == [] then 0
    else Authorized(cafs[..|cafs| - 1], t)
         + (if cafs[|cafs| - 1].typ == t then cafs[|cafs| - 1].rangeTo - cafs[|cafs| - 1].rangeFrom + 1 else 0)
  }

  /** Folios of a type not yet handed out, CAF by CAF. */
  function Remaining(cafs: seq<Caf>, t: int): int {
    if cafs == [] then 0
    else Remaining(cafs[..|cafs| - 1], t)
         + (if cafs[|cafs| - 1].typ == t then cafs[|cafs| - 1].rangeTo - LastUsed(cafs[|cafs| - 1]) else 0)
  }

  /** Entries of the log of a type. */
  function CountType(log: seq<(int, int)>, t: int): nat {
    if log == [] then 0
    else CountType(log[..|log| - 1], t) + (if log[|log| - 1].0 == t then 1 else 0)
  }

  lemma {:induction false} SumsAppend(cafs: seq<Caf>, more: seq<Caf>, t: int)
    ensures Authorized(cafs + more, t) == Authorized(cafs, t) + Authorized(more, t)
    ensures Remaining(cafs + more, t) == Remaining(cafs, t) + Remaining(more, t)
  {
    if more == [] {
      assert cafs + more == cafs;
    } else {
      SumsAppend(cafs, more[..|more| - 1], t);
      assert (cafs + more)[..|cafs + more| - 1] == cafs + more[..|more| - 1];
    }
  }

  lemma SumsOne(c: Caf, t: int)
    ensures Authorized([c], t) == if c.typ == t then c.rangeTo - c.rangeFrom + 1 else 0
    ensures Remaining([c], t) == if c.typ == t then c.rangeTo - LastUsed(c) else 0
  {
    assert [c][..0] == [];
  }

  lemma SumsReplace(cafs: seq<Caf>, i: nat, c: Caf, t: int)
    requires i < |cafs|
    ensures Authorized(cafs[i := c], t) == Authorized(cafs, t) - Authorized([cafs[i]], t) + Authorized([c], t)
    ensures Remaining(cafs[i := c], t) == Remaining(cafs, t) - Remaining([cafs[i]], t) + Remaining([c], t)
  {
    assert cafs == cafs[..i] + ([cafs[i]] + cafs[i + 1..]);
    assert cafs[i := c] == cafs[..i] + ([c] + cafs[i + 1..]);
    SumsAppend(cafs[..i], [cafs[i]] + cafs[i + 1..], t);
    SumsAppend([cafs[i]], cafs[i + 1..], t);
    SumsAppend(cafs[..i], [c] + cafs[i + 1..], t);
    SumsAppend([c], cafs[i + 1..], t);
  }

  lemma {:induction false} RemainingNonNegative(cafs: seq<Caf>, t: int)
    requires Valid(cafs)
    ensures Remaining(cafs, t) >= 0
    ensures Remaining(cafs, t) == 0 <==> forall i :: 0 <= i < |cafs| ==> !Available(cafs[i], t)
  {
    if cafs != [] {
      RemainingNonNegative(cafs[..|cafs| - 1], t);
      assert CafOk(cafs[|cafs| - 1]);
      assert forall i :: 0 <= i < |cafs| - 1 ==> cafs[..|cafs| - 1][i] == cafs[i];
    }
  }

  /** One upload or reservation keeps the balance of every type. */
  lemma {:induction false} StepConserves(l: Ledger, e: Event, t: int)
    requires LedgerOk(l)
    requires Authorized(Cafs(l.config), t) == CountType(l.log, t) + Remaining(Cafs(l.config), t)
    ensures var l' := Next(l, e); Authorized(Cafs(l'.config), t) == CountType(l'.log, t) + Remaining(Cafs(l'.config), t)
  {
    var cafs := Cafs(l.config);
    match e {
      case Upload(p) =>
        if WellFormed(p) && Uploaded(cafs, p).Ok? { UploadConserves(cafs, p, t); }
      case Reserve(u) =>
        if Reserved(l.config, u).Ok? {
          ReserveTakesOne(l.config, u, t);
          var f := Reserved(l.config, u).value.1;
          assert (l.log + [(u, f)])[..|l.log|] == l.log;
        }
    }
  }

  /** Used folios counted from the marks. */
  function Used(cafs: seq<Caf>, t: int): int { Authorized(cafs, t) - Remaining(cafs, t) }

  lemma UsedLast(cafs: seq<Caf>, c: Caf, t: int)
    ensures Used(cafs + [c], t) == Used(cafs, t) + (if c.typ == t then LastUsed(c) - c.rangeFrom + 1 else 0)
  {
    assert (cafs + [c])[..|cafs|] == cafs;
  }

  lemma {:induction false} PartitionUsed(keep: Caf -> bool, drop: Caf -> bool, cafs: seq<Caf>, t: int)
    requires forall c :: c in cafs ==> (keep(c) <==> !drop(c))
    ensures Used(Filter(keep, cafs), t) + Used(Filter(drop, cafs), t) == Used(cafs, t)
  {
    if cafs != [] {
      var init, last := cafs[..|cafs| - 1], cafs[|cafs| - 1];
      assert cafs == init + [last] && last in cafs;
      PartitionUsed(keep, drop, init, t);
      FilterLast(keep, init, last);
      FilterLast(drop, init, last);
      UsedLast(init, last, t);
      UsedLast(Filter(keep, init), last, t);
      UsedLast(Filter(drop, init), last, t);
    }
  }

  lemma UploadConserves(cafs: seq<Caf>, p: ParsedCaf, t: int)
    requires Valid(cafs) && WellFormed(p) && Uploaded(cafs, p).Ok?
    ensures Used(Uploaded(cafs, p).value, t) == Used(cafs, t)
  {
    var keep, over := (c: Caf) => !SameSlot(c, p), (c: Caf) => Overlaps(c, p);
    var kept, added := UploadedParts(cafs, p);
    assert Uploaded(cafs, p).value == Filter(keep, cafs) + [added];
    PartitionUsed(keep, over, cafs, t);
    SumsAppend(Filter(keep, cafs), [added], t);
    SumsOne(added, t);
    if c :| c in cafs && Overlaps(c, p) {
      AcceptedOverlap(cafs, p, c);
      SumsOne(c, t);
    } else {
      FilterNone(over, cafs);
    }
  }

  /** Authorized folios of a type equal those issued plus those remaining, after any history. */
  lemma {:induction false} EveryRunConserves(events: seq<Event>, t: int)
    ensures var l := Run(events);
            Authorized(Cafs(l.config), t) == CountType(l.log, t) + Remaining(Cafs(l.config), t)
  {
    if events != [] {
      EveryRunConserves(events[..|events| - 1], t);
      EveryRunKeepsLedger(events[..|events| - 1]);
      StepConserves(Run(events[..|events| - 1]), events[|events| - 1], t);
    }
  }

  /** Exhaustion is reported exactly when there is a CAF of the type and every
      folio of every such CAF was handed out. */
  lemma ExhaustedIffAllIssued(events: seq<Event>, t: int)
    ensures var l := Run(events); var cafs := Cafs(l.config);
            Reserved(l.config, t) == Err(Exhausted) <==>
            HasType(cafs, t) && forall i, f :: 0 <= i < |cafs| && FolioAllowed(cafs[i], t, f) ==> (t, f) in l.log
  {
    var l := Run(events);
    var cafs := Cafs(l.config);
    EveryRunKeepsLedger(events);
    forall i, f | 0 <= i < |cafs| && FolioAllowed(cafs[i], t, f)
      ensures (t, f) in l.log <==> f <= LastUsed(cafs[i])
    {
      FoliosOfMembers(l.log, cafs[i], f);
      IntervalMembers(cafs[i].rangeFrom, LastUsed(cafs[i]), f);
    }
    if HasType(cafs, t) && Reserved(l.config, t) != Err(Exhausted) {
      var i := FirstAvailable(cafs, t);
      assert CafOk(cafs[i]) && FolioAllowed(cafs[i], t, cafs[i].rangeTo);
      assert (t, cafs[i].rangeTo) !in l.log;
    }
    if Reserved(l.config, t) == Err(Exhausted) {
      forall i, f | 0 <= i < |cafs| && FolioAllowed(cafs[i], t, f) ensures (t, f) in l.log {
        assert !Available(cafs[i], t) && CafOk(cafs[i]);
      }
    }
  }

  function ReserveTimes(config: Config, t: int, n: nat): Result<Config, LedgerError>
    decreases n
  {
    if n == 0 then Ok(config)
    else match Reserved(config, t)
         case Ok((config', _)) => ReserveTimes(config', t, n - 1)
         case Err(e) => Err(e)
  }

  lemma ReserveTakesOne(config: Config, t: int, u: int)
    requires Valid(Cafs(config)) && Reserved(config, t).Ok?
    ensures Remaining(Cafs(Reserved(config, t).value.0), u) == Remaining(Cafs(config), u) - (if t == u then 1 else 0)
    ensures Authorized(Cafs(Reserved(config, t).value.0), u) == Authorized(Cafs(config), u)
  {
    var cafs := Cafs(config);
    var i := FirstAvailable(cafs, t);
    var c := cafs[i].(lastUsed := Some(LastUsed(cafs[i]) + 1));
    SumsReplace(cafs, i, c, u);
    SumsOne(cafs[i], u);
    SumsOne(c, u);
    assert Cafs(Reserved(config, t).value.0) == cafs[i := c];
  }

  lemma ReserveFailsIffNoneRemain(config: Config, t: int)
    requires Valid(Cafs(config))
    ensures Reserved(config, t).Ok? <==> Remaining(Cafs(config), t) > 0
  {
    var cafs := Cafs(config);
    RemainingNonNegative(cafs, t);
    var i := FirstAvailable(cafs, t);
    if i < |cafs| { assert Available(cafs[i], t); }
  }

  /** Exactly as many further reservations succeed as the ledger says remain. */
  lemma {:induction false} RemainingReservationsSucceed(config: Config, t: int, n: nat)
    requires Valid(Cafs(config))
    ensures ReserveTimes(config, t, n).Ok? <==> n <= Remaining(Cafs(config), t)
    decreases n
  {
    ReserveFailsIffNoneRemain(config, t);
    RemainingNonNegative(Cafs(config), t);
    if n > 0 && Reserved(config, t).Ok? {
      ReserveTakesOne(config, t, t);
      ReserveKeepsValid(config, t);
      RemainingReservationsSucceed(Reserved(config, t).value.0, t, n - 1);
    }
  }

  // ----------------------------------------------------------------- lookup

  /** The CAF found for a reserved folio is the very CAF that issued it. */
  lemma LookupFindsIssuer(config: Config, t: int)
    requires Valid(Cafs(config)) && Reserved(config, t).Ok?
    ensures var (config', f) := Reserved(config, t).value;
            && CafFor(Cafs(config'), t, f) == FirstAvailable(Cafs(config), t) < |Cafs(config')|
            && FolioAllowed(Cafs(config')[CafFor(Cafs(config'), t, f)], t, f)
  {
    var cafs := Cafs(config);
    var (config', f) := Reserved(config, t).value;
    var cafs' := Cafs(config');
    var i := FirstAvailable(cafs, t);
    var j := CafFor(cafs', t, f);
    CafForFirst(cafs', t, f);
    ReserveKeepsValid(config, t);
    assert FolioAllowed(cafs'[i], t, f);
    if j < i { assert false; }
  }
}
