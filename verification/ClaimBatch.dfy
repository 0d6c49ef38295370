/** The batch claim: which rows it takes, that two workers never take the same
    one, and that it amounts to single claims one after another. */
module ClaimBatch {
  import opened Wrappers
  import opened RequestStates
  import opened EmissionDb
  import opened Protocol

  ghost predicate Ascending(ids: seq<nat>) { forall i, j :: 0 <= i < j < |ids| ==> ids[i] < ids[j] }

  predicate Free(rows: seq<Row>, locked: set<nat>, now: int, r: nat) {
    r < |rows| && r !in locked && Claimable(rows[r], now)
  }

  /** The batch holds the earliest free rows: as many as the limit allows, and none is passed over. */
  lemma {:induction false} DueAreEarliest(rows: seq<Row>, limit: nat, locked: set<nat>, now: int)
    ensures var ids := Due(rows, limit, locked, now);
            && |ids| <= limit && Ascending(ids)
            && (forall i :: 0 <= i < |ids| ==> Free(rows, locked, now, ids[i]))
            && (forall r: nat :: Free(rows, locked, now, r) && r !in ids ==>
                  |ids| == limit && forall i :: 0 <= i < |ids| ==> ids[i] < r)
  {
    if rows != [] {
      var init := rows[..|rows| - 1];
      DueAreEarliest(init, limit, locked, now);
      var ids, earlier := Due(rows, limit, locked, now), Due(init, limit, locked, now);
      forall i | 0 <= i < |ids| ensures Free(rows, locked, now, ids[i]) {
        if i < |earlier| { assert Free(init, locked, now, earlier[i]); }
      }
      assert ids != earlier ==> ids[|ids| - 1] == |init|;
      forall i | 0 <= i < |earlier| ensures earlier[i] < |init| { assert Free(init, locked, now, earlier[i]); }
      forall r: nat | Free(rows, locked, now, r) && r !in ids
        ensures |ids| == limit && forall i :: 0 <= i < |ids| ==> ids[i] < r
      {
        if r < |init| {
          assert Free(init, locked, now, r);
          assert r !in earlier;
        }
      }
    }
  }

  /** Claiming a batch of distinct rows claims each of them once and touches no other. */
  lemma {:induction false} ClaimAllIsPointwise(rows: seq<Row>, ids: seq<nat>, now: int)
    requires Ascending(ids) && forall i :: 0 <= i < |ids| ==> ids[i] < |rows|
    ensures |ClaimAll(rows, ids, now)| == |rows|
    ensures forall k :: 0 <= k < |rows| ==>
              ClaimAll(rows, ids, now)[k] == if k in ids then ClaimedRow(rows[k], now) else rows[k]
  {
    if ids != [] {
      var init, r := ids[..|ids| - 1], ids[|ids| - 1];
      ClaimAllIsPointwise(rows, init, now);
      assert ids == init + [r];
      assert r !in init;
    }
  }

  /** A worker that looks before the other one's lease runs out takes none of its
      rows, whether the other transaction is still open (its rows are locked) or
      committed (they are no longer claimable). */
  lemma NoDoubleClaim(rows: seq<Row>, limit: nat, locked: set<nat>, now: int, limit': nat, locked': set<nat>,
                      later: int)
    requires later < now + LOCK_TIMEOUT_MS
    ensures var first := Due(rows, limit, locked, now);
            var held := set i | 0 <= i < |first| :: first[i];
            && (forall r :: r in Due(rows, limit', locked' + held, later) ==> r !in first)
            && (forall r :: r in Due(ClaimAll(rows, first, now), limit', locked', later) ==> r !in first)
  {
    var first := Due(rows, limit, locked, now);
    var held := set i | 0 <= i < |first| :: first[i];
    DueAreEarliest(rows, limit, locked, now);
    DueAreEarliest(rows, limit', locked' + held, later);
    var claimed := ClaimAll(rows, first, now);
    ClaimAllIsPointwise(rows, first, now);
    DueAreEarliest(claimed, limit', locked', later);
    var second := Due(claimed, limit', locked', later);
    forall r | r in second ensures r !in first {
      var i :| 0 <= i < |second| && second[i] == r;
      assert Free(claimed, locked', later, second[i]);
    }
    forall r | r in first ensures r in held {
      var k :| 0 <= k < |first| && first[k] == r;
    }
    var third := Due(rows, limit', locked' + held, later);
    forall r | r in third ensures r !in first {
      var i :| 0 <= i < |third| && third[i] == r;
      assert Free(rows, locked' + held, later, third[i]);
    }
  }

  /** Single claims one after another. */
  function ClaimEach(s: Sys, ids: seq<nat>): Option<Sys> {
    if ids == [] then Some(s)
    else
      match ClaimEach(s, ids[..|ids| - 1])
      case None => None
      case Some(s') => ClaimedBy(s', ids[|ids| - 1])
  }

  lemma ClaimOne(s: Sys, r: nat)
    requires r < |s.db.rows| == |s.books| && Claimable(s.db.rows[r], s.clock)
    ensures ClaimedBy(s, r).Some?
    ensures var s' := ClaimedBy(s, r).value;
            && s'.db == s.db.(rows := s.db.rows[r := ClaimedRow(s.db.rows[r], s.clock)]) && s'.clock == s.clock
            && s'.passes == s.passes + [Pass(r, Claimed)] && |s'.books| == |s.books|
            && s'.books[r].lease == Some(|s.passes|)
            && forall k :: 0 <= k < |s.books| && k != r ==> s'.books[k] == s.books[k]
  {}

  /** Pass `p` is new, claimed row `r` and holds its lease. */
  predicate NewPass(s: Sys, p: nat, r: nat) {
    p < |s.passes| && s.passes[p] == Pass(r, Claimed) && Holds(s, p)
  }

  /** The batch is the protocol's single claims in order: the same rows, and one new
      pass per row, which holds its lease. */
  lemma {:induction false} BatchIsSingleClaims(s: Sys, ids: seq<nat>)
    requires |s.books| == |s.db.rows| && Ascending(ids)
    requires forall i :: 0 <= i < |ids| ==> ids[i] < |s.db.rows| && Claimable(s.db.rows[ids[i]], s.clock)
    ensures ClaimEach(s, ids).Some?
    ensures var s' := ClaimEach(s, ids).value;
            && s'.db == s.db.(rows := ClaimAll(s.db.rows, ids, s.clock)) && s'.clock == s.clock
            && |s'.books| == |s.books|
            && |s'.passes| == |s.passes| + |ids|
            && forall i :: 0 <= i < |ids| ==> NewPass(s', |s.passes| + i, ids[i])
  {
    hide ClaimedBy, Claimable, ClaimedRow;
    if ids == [] {
      assert s.db == s.db.(rows := s.db.rows);
    } else {
      var init, r := ids[..|ids| - 1], ids[|ids| - 1];
      BatchIsSingleClaims(s, init);
      ClaimAllIsPointwise(s.db.rows, init, s.clock);
      assert r !in init;
      ClaimOne(ClaimEach(s, init).value, r);
      forall i | 0 <= i < |init| ensures NewPass(ClaimEach(s, ids).value, |s.passes| + i, ids[i]) {
        assert NewPass(ClaimEach(s, init).value, |s.passes| + i, init[i]);
      }
    }
  }
}
