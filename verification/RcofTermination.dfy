/** How often a report request is claimed, and that its retries come to an end. */
module RcofTermination {
  import opened Wrappers
  import opened RequestStates
  import opened RcofProtocol
  import opened RcofInvariant
  import opened RcofSteps
  import opened RcofTheorems
  import EmissionDb

  /** How often a run claims the request. */
  function Claims(actions: seq<Action>, r: nat): nat {
    if actions == [] then 0
    else Claims(actions[..|actions| - 1], r) + (if actions[|actions| - 1] == Claim(r) then 1 else 0)
  }

  /** The step claims the request from a pass that did not come to its end. */
  predicate Cuts(s: Sys, a: Action, r: nat) {
    a == Claim(r) && LatestPc(s, r).Some? && LatestPc(s, r) != Some(Done)
  }

  /** How many passes over the request a run cuts short. */
  function CutShort(actions: seq<Action>, r: nat): nat
    requires DisciplinedRun(actions)
  {
    if actions == [] then 0
    else CutShort(actions[..|actions| - 1], r)
         + (if Cuts(Run(actions[..|actions| - 1]).value, actions[|actions| - 1], r) then 1 else 0)
  }

  /** While a request is processed, each of its claims is an attempt used, a pass cut short, or the pass at work. */
  predicate CountsOk(s: Sys, r: nat, claims: nat, cut: nat)
    requires r < |s.rows|
  {
    var row, pc := s.rows[r], LatestPc(s, r);
    && row.maxAttempts == EmissionDb.MAX_ATTEMPTS && row.attempts <= EmissionDb.MAX_ATTEMPTS
    && claims <= EmissionDb.MAX_ATTEMPTS + cut
    && (row.state == Queued ==> pc.None? && row.attempts == 0 && claims == 0 && cut == 0)
    && (row.state == Processing ==>
          && pc.Some? && row.attempts < EmissionDb.MAX_ATTEMPTS
          && claims + (if pc == Some(Done) then 1 else 0) == row.attempts + cut + 1)
  }

  lemma ClaimCounts(s: Sys, k: nat, r: nat, claims: nat, cut: nat)
    requires Inv(s, ANY) && ClaimedBy(s, k).Some? && r < |s.rows| && CountsOk(s, r, claims, cut)
    ensures var s' := ClaimedBy(s, k).value;
            && r < |s'.rows|
            && CountsOk(s', r, claims + (if k == r then 1 else 0), cut + (if Cuts(s, Claim(k), r) then 1 else 0))
  {
    InvShape(s);
    hide Inv;
  }

  /** A requested change closes the request's processing, or meets it in flight. */
  lemma ChangeCounts(s: Sys, a: Action, r: nat, claims: nat, cut: nat)
    requires Inv(s, ANY) && Disciplined(s, a) && Next(s, a).Some? && Asks(s, a).Some?
    requires r < |s.rows| && CountsOk(s, r, claims, cut)
    ensures r < |Next(s, a).value.rows| && CountsOk(Next(s, a).value, r, claims, cut)
  {
    hide Inv, Next, Told;
    InvShape(s);
    ChangeFacts(s, a, ANY);
    ChangeCopies(s, a);
    AskedIsCarried(s, a);
    if PassOf(a).Some? {
      OnlyOwnPass(s, a, r);
    } else {
      PollsLeavePasses(s, a);
    }
  }

  lemma PollsLeavePasses(s: Sys, a: Action)
    requires Next(s, a).Some? && a.ApplyPoll?
    ensures Next(s, a).value.passes == s.passes && Next(s, a).value.leases == s.leases
  {}

  /** A scheduled retry uses an attempt and ends the pass; no other step of a pass does either. */
  lemma PassCounts(s: Sys, a: Action, r: nat, claims: nat, cut: nat)
    requires Inv(s, ANY) && Disciplined(s, a) && Next(s, a).Some? && Asks(s, a).None? && PassOf(a).Some?
    requires r < |s.rows| && CountsOk(s, r, claims, cut)
    ensures r < |Next(s, a).value.rows| && CountsOk(Next(s, a).value, r, claims, cut)
  {
    hide Inv, Next, Asks;
    InvShape(s);
    HolderFacts(s, PassOf(a).value, ANY);
    OnlyOwnPass(s, a, r);
    PassWrites(s, a);
  }

  /** Another request's row is untouched; this one's keeps its state, and a retry uses one attempt. */
  predicate Wrote(s: Sys, s': Sys, p: nat, retry: bool)
    requires PassAt(s, p)
  {
    var k := s.passes[p].request;
    && !s.passes[p].pc.Done? && |s'.rows| == |s.rows| && |s'.passes| == |s.passes|
    && (forall i :: 0 <= i < |s.rows| && i != k ==> s'.rows[i] == s.rows[i])
    && s'.rows[k].state == s.rows[k].state && s'.rows[k].maxAttempts == s.rows[k].maxAttempts
    && if retry then s'.passes[p].pc.Done? && s'.rows[k].attempts == s.rows[k].attempts + 1 < EffectiveMax(s.rows[k])
       else !s'.passes[p].pc.Done? && s'.rows[k].attempts == s.rows[k].attempts
  }

  lemma PassWrites(s: Sys, a: Action)
    requires Inv(s, ANY) && Disciplined(s, a) && Next(s, a).Some? && Asks(s, a).None? && PassOf(a).Some?
    ensures PassAt(s, PassOf(a).value) && Wrote(s, Next(s, a).value, PassOf(a).value, a.Retry?)
  {
    hide Inv;
    HolderFacts(s, PassOf(a).value, ANY);
    hide RowOk, PcOk, Known, LinkOk;
    if a.Retry? { RetryWrites(s, a.p); } else if a.Link? { LinkWrites(s, a.p); }
    hide Retrying, Linking, Asks;
  }

  lemma LinkWrites(s: Sys, p: nat)
    requires PassAt(s, p) && Linking(s, p).Some?
    ensures Wrote(s, Linking(s, p).value, p, false)
  {}

  lemma RetryWrites(s: Sys, p: nat)
    requires Inv(s, ANY) && Holds(s, p) && Retrying(s, p).Some? && Asks(s, Retry(p)).None?
    ensures PassAt(s, p) && Wrote(s, Retrying(s, p).value, p, true)
  {
    hide Inv;
    HolderFacts(s, p, ANY);
  }

  lemma EnvironmentCounts(s: Sys, a: Action, r: nat, claims: nat, cut: nat)
    requires Next(s, a).Some? && Asks(s, a).None? && PassOf(a).None? && !a.Claim?
    requires r < |s.rows| && r < |s.leases| && CountsOk(s, r, claims, cut)
    ensures r < |Next(s, a).value.rows| && CountsOk(Next(s, a).value, r, claims, cut)
  {}

  /** Every step keeps the account of a request. */
  lemma StepCounts(s: Sys, a: Action, r: nat, claims: nat, cut: nat)
    requires Inv(s, ANY) && Disciplined(s, a) && Next(s, a).Some? && r < |s.rows| && CountsOk(s, r, claims, cut)
    ensures r < |Next(s, a).value.rows|
    ensures CountsOk(Next(s, a).value, r, claims + (if a == Claim(r) then 1 else 0),
                     cut + (if Cuts(s, a, r) then 1 else 0))
  {
    hide Inv, CountsOk, Asks, ClaimedBy;
    InvShape(s);
    if a.Claim? { ClaimCounts(s, a.r, r, claims, cut); }
    else if Asks(s, a).Some? { ChangeCounts(s, a, r, claims, cut); }
    else if PassOf(a).Some? { PassCounts(s, a, r, claims, cut); }
    else { EnvironmentCounts(s, a, r, claims, cut); }
  }

  /** Before its acceptance a request is not claimed; its acceptance opens its account. */
  lemma FirstCounts(s: Sys, a: Action, r: nat)
    requires Inv(s, ANY) && Disciplined(s, a) && Next(s, a).Some? && r >= |s.rows|
    ensures a != Claim(r)
    ensures r < |Next(s, a).value.rows| ==> CountsOk(Next(s, a).value, r, 0, 0)
  {
    InvShape(s);
    hide Inv;
    if !a.Enqueue? && !a.Claim? {
      if Asks(s, a).Some? { ChangeKeepsKeys(s, a); } else { OtherKeepsKeys(s, a); }
      hide Next;
    }
  }

  lemma {:induction false} CountsInEveryRun(actions: seq<Action>, r: nat)
    requires DisciplinedRun(actions)
    ensures Run(actions).Some?
    ensures if r < |Run(actions).value.rows|
            then CountsOk(Run(actions).value, r, Claims(actions, r), CutShort(actions, r))
            else Claims(actions, r) == 0 && CutShort(actions, r) == 0
  {
    hide Next, Inv, CountsOk, Disciplined;
    if actions != [] {
      var init, a := actions[..|actions| - 1], actions[|actions| - 1];
      CountsInEveryRun(init, r);
      DisciplinedRunKeeps(init);
      var s := Run(init).value;
      if r < |s.rows| {
        StepCounts(s, a, r, Claims(init, r), CutShort(init, r));
      } else {
        FirstCounts(s, a, r);
      }
    }
  }

  /** A report request is claimed at most five times plus once per pass that was cut
      short; its attempts never exceed the maximum, and while it is processed, a
      scheduled retry included, they stay below it. */
  lemma {:induction false} ClaimsAreBounded(actions: seq<Action>, r: nat)
    requires DisciplinedRun(actions) && Run(actions).Some? && r < |Run(actions).value.rows|
    ensures Claims(actions, r) <= EmissionDb.MAX_ATTEMPTS + CutShort(actions, r)
    ensures var row := Run(actions).value.rows[r];
            && row.attempts <= row.maxAttempts == EmissionDb.MAX_ATTEMPTS
            && (row.state == Processing ==> row.attempts < row.maxAttempts)
  {
    hide Run, DisciplinedRun, Claims, CutShort;
    CountsInEveryRun(actions, r);
  }
}
