/** The folio allocator of a tenant: CAF authorizations (ranges of folios per
    document type) kept in the tenant configuration, uploads, reservations and
    the lookup of the CAF that signs a folio. */
module FolioLedger {
  import opened Wrappers
  import opened Sequences

  /** A stored authorization. `lastUsed` is absent until the first upload or
      reservation sets it; `material` stands for the XML and key it carries. */
  datatype Caf = Caf(typ: int, rangeFrom: int, rangeTo: int, lastUsed: Option<int>, material: int)

  /** An authorization file as parsed; the parser refuses empty and non-positive ranges. */
  datatype ParsedCaf = ParsedCaf(typ: int, rangeFrom: int, rangeTo: int, material: int)

  datatype Config = Missing | Config(cafs: seq<Caf>)

  datatype LedgerError = Overlap | NoConfig | NoCafs | NoCafForType | Exhausted

  function Cafs(config: Config): seq<Caf> {
    if config.Missing? then [] else config.cafs
  }

  predicate WellFormed(p: ParsedCaf) {
    1 <= p.rangeFrom <= p.rangeTo
  }

  function LastUsed(c: Caf): int {
    if c.lastUsed.Some? then c.lastUsed.value else c.rangeFrom - 1
  }

  // ---------------------------------------------------------------- uploads

  predicate Overlaps(c: Caf, p: ParsedCaf) {
    c.typ == p.typ && c.rangeFrom <= p.rangeTo && c.rangeTo >= p.rangeFrom
  }

  predicate SameSlot(c: Caf, p: ParsedCaf) {
    c.typ == p.typ && c.rangeFrom == p.rangeFrom
  }

  /** The outcome of merging an uploaded file into the stored list. */
  function Uploaded(cafs: seq<Caf>, p: ParsedCaf): Result<seq<Caf>, LedgerError> {
    var overlaps := Filter((c: Caf) => Overlaps(c, p), cafs);
    if exists i :: 0 <= i < |overlaps|
                   && (overlaps[i].rangeFrom != p.rangeFrom || overlaps[i].rangeTo != p.rangeTo) then
      Err(Overlap)
    else
      var prior := if |overlaps| > 0 && overlaps[0].lastUsed.Some? then overlaps[0].lastUsed.value else p.rangeFrom - 1;
      var last := if prior >= p.rangeFrom - 1 then prior else p.rangeFrom - 1;
      Ok(Filter((c: Caf) => !SameSlot(c, p), cafs) + [Caf(p.typ, p.rangeFrom, p.rangeTo, Some(last), p.material)])
  }

  // ----------------------------------------------------------- reservations

  predicate HasType(cafs: seq<Caf>, t: int) {
    exists i :: 0 <= i < |cafs| && cafs[i].typ == t
  }

  predicate Available(c: Caf, t: int) {
    c.typ == t && LastUsed(c) < c.rangeTo
  }

  /** Position of the first CAF of type `t` with a folio left, or the length. */
  function FirstAvailable(cafs: seq<Caf>, t: int): (i: nat)
    ensures i <= |cafs|
    ensures i < |cafs| ==> Available(cafs[i], t)
    ensures forall j :: 0 <= j < i ==> !Available(cafs[j], t)
  {
    if cafs == [] then 0
    else if Available(cafs[0], t) then 0
    else 1 + FirstAvailable(cafs[1..], t)
  }

  function Advanced(cafs: seq<Caf>, i: nat): seq<Caf>
    requires i < |cafs|
  {
    cafs[i := cafs[i].(lastUsed := Some(LastUsed(cafs[i]) + 1))]
  }

  /** New configuration and reserved folio, or the reason there is none. */
  function Reserved(config: Config, t: int): Result<(Config, int), LedgerError> {
    if config.Missing? then Err(NoConfig)
    else if config.cafs == [] then Err(NoCafs)
    else if !HasType(config.cafs, t) then Err(NoCafForType)
    else
      var i := FirstAvailable(config.cafs, t);
      if i == |config.cafs| then Err(Exhausted)
      else Ok((Config(Advanced(config.cafs, i)), LastUsed(config.cafs[i]) + 1))
  }

  /** Position of the first CAF whose range covers the folio, or the length. */
  function CafFor(cafs: seq<Caf>, t: int, folio: int): (i: nat)
    ensures i <= |cafs|
  {
    if cafs == [] then 0
    else if FolioAllowed(cafs[0], t, folio) then 0
    else 1 + CafFor(cafs[1..], t, folio)
  }

  lemma {:induction false} CafForFirst(cafs: seq<Caf>, t: int, folio: int)
    ensures var i := CafFor(cafs, t, folio);
            && (i < |cafs| ==> FolioAllowed(cafs[i], t, folio))
            && forall j :: 0 <= j < i ==> !FolioAllowed(cafs[j], t, folio)
  {
    if cafs != [] { CafForFirst(cafs[1..], t, folio); }
  }

  predicate FolioAllowed(c: Caf, t: int, folio: int) {
    c.typ == t && c.rangeFrom <= folio <= c.rangeTo
  }

  /** The tenant's configuration row, changed in place under its row lock. */
  class TenantConfigRecord {
    var config: Config

    constructor ()
      ensures config == Missing
    {
      config := Missing;
    }

    method UploadCaf(p: ParsedCaf) returns (r: Result<(), LedgerError>)
      requires WellFormed(p)
      modifies this
      ensures r.Ok? <==> Uploaded(old(Cafs(config)), p).Ok?
      ensures r.Ok? ==> config == Config(Uploaded(old(Cafs(config)), p).value)
      ensures r.Err? ==> config == old(config) && r.error == Overlap
    {
      var cafs := Cafs(config);
      var overlaps: seq<Caf> := [];
      var clash := false;
      var kept: seq<Caf> := [];
      var i := 0;
      while i < |cafs|
        invariant 0 <= i <= |cafs|
        invariant overlaps == Filter((c: Caf) => Overlaps(c, p), cafs[..i])
        invariant kept == Filter((c: Caf) => !SameSlot(c, p), cafs[..i])
        invariant clash <==> exists k ::
                    0 <= k < |overlaps| && (overlaps[k].rangeFrom != p.rangeFrom || overlaps[k].rangeTo != p.rangeTo)
      {
        assert cafs[..i + 1][..i] == cafs[..i];
        ghost var before := overlaps;
        if Overlaps(cafs[i], p) {
          overlaps := overlaps + [cafs[i]];
          if cafs[i].rangeFrom != p.rangeFrom || cafs[i].rangeTo != p.rangeTo {
            clash := true;
            assert overlaps[|before|] == cafs[i];
          }
          assert forall k :: 0 <= k < |before| ==> overlaps[k] == before[k];
        }
        if !SameSlot(cafs[i], p) {
          kept := kept + [cafs[i]];
        }
        i := i + 1;
      }
      assert cafs[..i] == cafs;
      if clash {
        return Err(Overlap);
      }
      var last := p.rangeFrom - 1;
      if |overlaps| > 0 && overlaps[0].lastUsed.Some? && overlaps[0].lastUsed.value > last {
        last := overlaps[0].lastUsed.value;
      }
      config := Config(kept + [Caf(p.typ, p.rangeFrom, p.rangeTo, Some(last), p.material)]);
      r := Ok(());
    }

    method ReserveFolio(t: int) returns (r: Result<int, LedgerError>)
      modifies this
      ensures r.Ok? <==> Reserved(old(config), t).Ok?
      ensures r.Ok? ==> config == Reserved(old(config), t).value.0 && r.value == Reserved(old(config), t).value.1
      ensures r.Err? ==> config == old(config) && r.error == Reserved(old(config), t).error
    {
      if config.Missing? {
        return Err(NoConfig);
      }
      var cafs := config.cafs;
      if |cafs| == 0 {
        return Err(NoCafs);
      }
      var seen := false;
      var i := 0;
      while i < |cafs|
        invariant 0 <= i <= |cafs|
        invariant seen <==> HasType(cafs[..i], t)
        invariant forall j :: 0 <= j < i ==> !Available(cafs[j], t)
      {
        if cafs[i].typ == t {
          seen := true;
          assert cafs[..i + 1][i].typ == t;
          if LastUsed(cafs[i]) < cafs[i].rangeTo {
            FirstAvailableUnique(cafs, t, i);
            var next := LastUsed(cafs[i]) + 1;
            config := Config(cafs[i := cafs[i].(lastUsed := Some(next))]);
            return Ok(next);
          }
        }
        assert seen ==> HasType(cafs[..i + 1], t) by {
          if HasType(cafs[..i], t) {
            var k :| 0 <= k < i && cafs[..i][k].typ == t;
            assert cafs[..i + 1][k].typ == t;
          }
        }
        i := i + 1;
      }
      assert cafs[..i] == cafs;
      r := Err(if seen then Exhausted else NoCafForType);
    }
  }

  lemma FirstAvailableUnique(cafs: seq<Caf>, t: int, i: nat)
    requires i < |cafs| && Available(cafs[i], t)
    requires forall j :: 0 <= j < i ==> !Available(cafs[j], t)
    ensures FirstAvailable(cafs, t) == i
  {}
}
