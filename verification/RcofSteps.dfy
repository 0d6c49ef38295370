/** Each action of the receipts-report protocol keeps the invariant. */
module RcofSteps {
  import opened Wrappers
  import opened RequestStates
  import opened RcofProtocol
  import opened RcofInvariant
  import Outbox
  import Protocol
  import ProtocolInvariant

  /** The authority settles an objection. */
  predicate Revises(s: Sys, a: Action) {
    a.SiiDecides? && a.t < |s.verdicts| && s.verdicts[a.t] == Protocol.SiiReparo
  }

  /** A TrackID is recorded over another one. */
  predicate Overwrites(s: Sys, a: Action) {
    a.RecordTrack? && SubAt(s, a.p) && s.subs[s.passes[a.p].pc.d].track.Some?
  }

  /** The step is one the mode admits. */
  predicate Admits(s: Sys, a: Action, m: Mode) {
    && Disciplined(s, a) && (m.revisable || !Revises(s, a)) && (m.single ==> !Overwrites(s, a))
  }

  // ------------------------------------------------------- the lease holder

  /** The request a pass holds, and what is known of the pass. */
  lemma HolderFacts(s: Sys, p: nat, m: Mode)
    requires Inv(s, m) && Holds(s, p)
    ensures PassAt(s, p)
    ensures var r := s.passes[p].request;
            && RowOk(s, s.rows[r], Some(s.passes[p].pc), s.settledBy[r], m)
            && (!s.passes[p].pc.Done? && !s.passes[p].pc.Crashed? && !s.passes[p].pc.Concluding? ==>
                  s.rows[r].state == Processing && PcOk(s, s.passes[p].pc, s.rows[r], m))
            && (s.passes[p].pc.Concluding? ==> InFlight(s.rows[r].state) && EndOk(s, s.passes[p].pc, s.rows[r], m))
  {
    assert RequestOk(s, s.passes[p].request, m);
  }

  /** A pass's step: its own row, its own position, submissions and verdicts. */
  ghost predicate PassStep(s: Sys, s': Sys, p: nat, row: Row, pc: Pc, settledBy: Option<nat>)
    requires PassAt(s, p)
  {
    var r := s.passes[p].request;
    && s'.rows == s.rows[r := row] && s'.passes == s.passes[p := Pass(r, pc)] && s'.polls == s.polls
    && s'.leases == s.leases && s'.settledBy == s.settledBy[r := settledBy]
  }

  lemma PollFollows(s: Sys, poll: Poll, row: Row, row': Row, m: Mode)
    requires PollOk(s, poll, row, m) && SameRequest(row', row) && InFlight(row'.state)
    ensures PollOk(s, poll, row', m)
  {}

  lemma PassLatest(s: Sys, s': Sys, p: nat, row: Row, pc: Pc, settledBy: Option<nat>, k: nat)
    requires Shape(s) && Holds(s, p) && PassAt(s, p) && PassStep(s, s', p, row, pc, settledBy) && k < |s.rows|
    ensures LatestPc(s', k) == if k == s.passes[p].request then Some(pc) else LatestPc(s, k)
  {}

  lemma PassStepKeeps(s: Sys, s': Sys, p: nat, row: Row, pc: Pc, settledBy: Option<nat>, m: Mode)
    requires Inv(s, m) && Holds(s, p) && PassAt(s, p) && PassStep(s, s', p, row, pc, settledBy) && Grows(s, s', m)
    requires forall d: nat :: d < |s'.subs| ==> Known(s', d, s'.subs[d], m)
    requires RowOk(s', row, Some(pc), settledBy, m)
    requires s.rows[s.passes[p].request].state == Processing
             || (SameRequest(row, s.rows[s.passes[p].request]) && InFlight(row.state))
    ensures Inv(s', m)
  {
    hide RowOk, Known;
    var r := s.passes[p].request;
    forall k: nat | k < |s.rows| ensures LatestPc(s', k) == if k == r then Some(pc) else LatestPc(s, k) {
      PassLatest(s, s', p, row, pc, settledBy, k);
    }
    assert Elsewhere(s, s', r, m);
    forall q: nat | q < |s'.polls| && s'.polls[q].request == r ensures PollOk(s', s'.polls[q], s'.rows[r], m) {
      assert PollOk(s, s.polls[q], s.rows[r], m);
      PollStays(s, s', s.polls[q], s.rows[r], m);
      PollFollows(s', s.polls[q], s.rows[r], row, m);
    }
    Rebuild(s, s', r, m);
  }

  /** Only the position of a pass changes. */
  lemma MovedKeeps(s: Sys, p: nat, pc: Pc, m: Mode)
    requires Inv(s, m) && Holds(s, p) && PassAt(s, p)
    requires s.rows[s.passes[p].request].state == Processing || InFlight(s.rows[s.passes[p].request].state)
    requires RowOk(s, s.rows[s.passes[p].request], Some(pc), s.settledBy[s.passes[p].request], m)
    ensures Inv(Moved(s, p, pc), m)
  {
    hide Inv, RowOk, Known;
    var r := s.passes[p].request;
    var s' := Moved(s, p, pc);
    assert s.rows[r := s.rows[r]] == s.rows && s.settledBy[r := s.settledBy[r]] == s.settledBy;
    SubsStay(s, s', m);
    RowStays(s, s', s.rows[r], Some(pc), s.settledBy[r], m);
    PassStepKeeps(s, s', p, s.rows[r], pc, s.settledBy[r], m);
  }

  lemma LookupKeeps(s: Sys, p: nat, m: Mode)
    requires Inv(s, m) && Holds(s, p) && LookedUp(s, p).Some?
    ensures Inv(LookedUp(s, p).value, m)
  {
    HolderFacts(s, p, m);
    var d := Find(s.subs, s.passes[p].pc.copy.key);
    if d < |s.subs| { assert Known(s, d, s.subs[d], m); }
    hide Inv;
    MovedKeeps(s, p, LookedUp(s, p).value.passes[p].pc, m);
  }

  lemma CreateKeeps(s: Sys, p: nat, m: Mode)
    requires Inv(s, m) && Holds(s, p) && Created(s, p).Some?
    ensures Inv(Created(s, p).value, m)
  {
    HolderFacts(s, p, m);
    hide Inv;
    var r, copy := s.passes[p].request, s.passes[p].pc.copy;
    if Find(s.subs, copy.key) < |s.subs| {
      MovedKeeps(s, p, Erred(copy), m);
    } else {
      var s' := Created(s, p).value;
      assert s.rows[r := s.rows[r]] == s.rows && s.settledBy[r := s.settledBy[r]] == s.settledBy;
      SubChanged(s, s', |s.subs|, m);
      PassStepKeeps(s, s', p, s.rows[r], Sending(copy, |s.subs|), s.settledBy[r], m);
    }
  }

  lemma RefuseKeeps(s: Sys, p: nat, m: Mode)
    requires Inv(s, m) && Holds(s, p) && Refusing(s, p).Some?
    ensures Inv(Refusing(s, p).value, m)
  {
    HolderFacts(s, p, m);
    MovedKeeps(s, p, Refused(s.passes[p].pc.copy), m);
  }

  lemma FaultKeeps(s: Sys, p: nat, m: Mode)
    requires Inv(s, m) && Holds(s, p) && Faulted(s, p).Some?
    ensures Inv(Faulted(s, p).value, m)
  {
    HolderFacts(s, p, m);
    MovedKeeps(s, p, Erred(s.passes[p].pc.copy), m);
  }

  lemma CrashKeeps(s: Sys, p: nat, m: Mode)
    requires Inv(s, m) && Holds(s, p) && Crashing(s, p).Some?
    ensures Inv(Crashing(s, p).value, m)
  {
    HolderFacts(s, p, m);
    MovedKeeps(s, p, Crashed, m);
  }

  lemma PostKeeps(s: Sys, p: nat, m: Mode)
    requires Inv(s, m) && Holds(s, p) && Posting(s, p).Some?
    ensures Inv(Posting(s, p).value, m)
  {
    HolderFacts(s, p, m);
    hide Inv;
    var r, s' := s.passes[p].request, Posting(s, p).value;
    assert s.rows[r := s.rows[r]] == s.rows && s.settledBy[r := s.settledBy[r]] == s.settledBy;
    SubsStay(s, s', m);
    PassStepKeeps(s, s', p, s.rows[r], s'.passes[p].pc, s.settledBy[r], m);
  }

  lemma FailPostKeeps(s: Sys, p: nat, written: bool, m: Mode)
    requires Inv(s, m) && Holds(s, p) && PostFailed(s, p, written).Some?
    ensures Inv(PostFailed(s, p, written).value, m)
  {
    HolderFacts(s, p, m);
    var r, d, s' := s.passes[p].request, s.passes[p].pc.d, PostFailed(s, p, written).value;
    if written {
      assert Known(s, d, s.subs[d], m);
      hide Inv;
      assert s.rows[r := s.rows[r]] == s.rows && s.settledBy[r := s.settledBy[r]] == s.settledBy;
      SubChanged(s, s', d, m);
      PassStepKeeps(s, s', p, s.rows[r], Erred(s.passes[p].pc.copy), s.settledBy[r], m);
    } else {
      MovedKeeps(s, p, Erred(s.passes[p].pc.copy), m);
    }
  }

  lemma RecordKeeps(s: Sys, p: nat, m: Mode)
    requires Inv(s, m) && Holds(s, p) && TrackRecorded(s, p).Some? && (m.single ==> !Overwrites(s, RecordTrack(p)))
    ensures Inv(TrackRecorded(s, p).value, m)
  {
    HolderFacts(s, p, m);
    var r, d, s' := s.passes[p].request, s.passes[p].pc.d, TrackRecorded(s, p).value;
    assert Known(s, d, s.subs[d], m);
    hide Inv;
    assert s.rows[r := s.rows[r]] == s.rows && s.settledBy[r := s.settledBy[r]] == s.settledBy;
    SubChanged(s, s', d, m);
    PassStepKeeps(s, s', p, s.rows[r], s'.passes[p].pc, s.settledBy[r], m);
  }

  lemma LinkKeeps(s: Sys, p: nat, m: Mode)
    requires Inv(s, m) && Holds(s, p) && Linking(s, p).Some?
    ensures Inv(Linking(s, p).value, m)
  {
    HolderFacts(s, p, m);
    hide Inv;
    var r, s' := s.passes[p].request, Linking(s, p).value;
    assert s.settledBy[r := s.settledBy[r]] == s.settledBy;
    SubsStay(s, s', m);
    KnownStays(s, s', s.passes[p].pc.d, s.passes[p].pc.sub, m);
    PassStepKeeps(s, s', p, s'.rows[r], s'.passes[p].pc, s.settledBy[r], m);
  }

  // ------------------------------------------------------------- state changes

  /** The row after an allowed change. */
  function Advanced(s: Sys, r: nat, copy: Row, target: PublicState): Row
    requires r < |s.rows|
  {
    copy.(state := target, history := s.rows[r].history + [Entry(s, r, target)])
  }

  lemma AdvancedHistory(s: Sys, r: nat, copy: Row, target: PublicState)
    requires r < |s.rows| && HistoryOk(s.rows[r]) && s.rows[r].state != Queued
    requires target in AllowedTransitions(s.rows[r].state) && target != Processing
    ensures HistoryOk(Advanced(s, r, copy, target))
  {
    PathExtends(s.rows[r].history, Entry(s, r, target));
  }

  lemma SubmitKeeps(s: Sys, p: nat, m: Mode)
    requires Inv(s, m) && Holds(s, p) && Submitting(s, p).Some?
    ensures Inv(Submitting(s, p).value, m) && Submitting(s, p).value.raises == s.raises
  {
    HolderFacts(s, p, m);
    hide Inv;
    var r, s' := s.passes[p].request, Submitting(s, p).value;
    AdvancedHistory(s, r, s.passes[p].pc.held, Submitted);
    assert s.settledBy[r := s.settledBy[r]] == s.settledBy;
    SubsStay(s, s', m);
    KnownStays(s, s', s.rows[r].rcofId.value, s.passes[p].pc.sub, m);
    PassStepKeeps(s, s', p, s'.rows[r], s'.passes[p].pc, s.settledBy[r], m);
  }

  lemma FailedKeeps(s: Sys, p: nat, copy: Row, m: Mode)
    requires Inv(s, m) && Holds(s, p) && PassAt(s, p) && s.rows[s.passes[p].request].state == Processing
    requires LinkOk(s, copy)
    ensures var s' := Closing(s, p, copy, PublicState.Failed, None); Inv(s', m) && s'.raises == s.raises
  {
    HolderFacts(s, p, m);
    hide Inv;
    var r := s.passes[p].request;
    var s' := Closing(s, p, copy, PublicState.Failed, None);
    AdvancedHistory(s, r, copy, PublicState.Failed);
    assert s.settledBy[r := s.settledBy[r]] == s.settledBy;
    SubsStay(s, s', m);
    PassStepKeeps(s, s', p, s'.rows[r], Done, s.settledBy[r], m);
  }

  lemma FailKeeps(s: Sys, p: nat, m: Mode)
    requires Inv(s, m) && Holds(s, p) && Failing(s, p).Some?
    ensures Inv(Failing(s, p).value, m) && Failing(s, p).value.raises == s.raises
  {
    HolderFacts(s, p, m);
    FailedKeeps(s, p, s.passes[p].pc.copy, m);
  }

  lemma RetryKeeps(s: Sys, p: nat, m: Mode)
    requires Inv(s, m) && Holds(s, p) && Retrying(s, p).Some?
    ensures Inv(Retrying(s, p).value, m) && Retrying(s, p).value.raises == s.raises
  {
    hide Inv;
    HolderFacts(s, p, m);
    var r, copy := s.passes[p].request, s.passes[p].pc.copy;
    var next := copy.(attempts := copy.attempts + 1);
    if next.attempts >= EffectiveMax(next) {
      FailedKeeps(s, p, next, m);
    } else {
      var s' := Retrying(s, p).value;
      assert s.settledBy[r := s.settledBy[r]] == s.settledBy;
      SubsStay(s, s', m);
      PassStepKeeps(s, s', p, s'.rows[r], Done, s.settledBy[r], m);
    }
  }

  lemma ConcludeKeeps(s: Sys, p: nat, m: Mode)
    requires Inv(s, m) && Holds(s, p) && Concluded(s, p).Some?
    ensures Inv(Concluded(s, p).value, m)
  {
    hide Inv;
    HolderFacts(s, p, m);
    var r, s' := s.passes[p].request, Concluded(s, p).value;
    var target := s.passes[p].pc.target;
    if Rejects(s, r, target) || s.rows[r].state == target {
      MovedKeeps(s, p, s'.passes[p].pc, m);
      RaisesIrrelevant(Moved(s, p, s'.passes[p].pc), s'.raises, m);
    } else {
      ConcludeChanges(s, p, m);
    }
  }

  lemma ConcludeChanges(s: Sys, p: nat, m: Mode)
    requires Inv(s, m) && Holds(s, p) && Concluded(s, p).Some?
    requires var r, target := s.passes[p].request, s.passes[p].pc.target;
             !Rejects(s, r, target) && s.rows[r].state != target
    ensures Inv(Concluded(s, p).value, m)
  {
    hide Inv;
    HolderFacts(s, p, m);
    var r, s', target := s.passes[p].request, Concluded(s, p).value, s.passes[p].pc.target;
    AdvancedHistory(s, r, s.passes[p].pc.copy, target);
    SubsStay(s, s', m);
    ToldStays(s, s', s.rows[r].rcofId.value, s.passes[p].pc.source, target, m);
    PassStepKeeps(s, s', p, s'.rows[r], Done, s.passes[p].pc.source, m);
  }

  lemma RaisesIrrelevant(s: Sys, raises: seq<Raise>, m: Mode)
    requires Inv(s, m)
    ensures Inv(s.(raises := raises), m)
  {
    var s' := s.(raises := raises);
    SameKnowledge(s, s', m);
  }

  /** Rows, passes, polls, leases, submissions and verdicts untouched. */
  lemma SameKnowledge(s: Sys, s': Sys, m: Mode)
    requires Inv(s, m)
    requires s' == s.(outbox := s'.outbox, clock := s'.clock, raises := s'.raises)
    ensures Inv(s', m)
  {
    SubsStay(s, s', m);
    forall r: nat | r < |s'.rows| ensures RequestOk(s', r, m) {
      assert RequestOk(s, r, m);
      RowStays(s, s', s.rows[r], LatestPc(s, r), s.settledBy[r], m);
    }
    forall q: nat | q < |s'.polls| ensures PollOk(s', s'.polls[q], s'.rows[s'.polls[q].request], m) {
      assert PollOk(s, s.polls[q], s.rows[s.polls[q].request], m);
      PollStays(s, s', s.polls[q], s.rows[s.polls[q].request], m);
    }
  }

  // ------------------------------------------------------------------ polling

  lemma PollFacts(s: Sys, q: nat, m: Mode)
    requires Inv(s, m) && PollAt(s, q)
    ensures var r := s.polls[q].request;
            && PollOk(s, s.polls[q], s.rows[r], m) && RowOk(s, s.rows[r], LatestPc(s, r), s.settledBy[r], m)
  {
    assert PollOk(s, s.polls[q], s.rows[s.polls[q].request], m) && RequestOk(s, s.polls[q].request, m);
  }

  /** A poll's step: its own position, its request's row, submissions. */
  ghost predicate PollStep(s: Sys, s': Sys, q: nat, row: Row, pc: PollPc, settledBy: Option<nat>)
    requires PollAt(s, q)
  {
    var r := s.polls[q].request;
    && s'.rows == s.rows[r := row] && s'.passes == s.passes && s'.polls == s.polls[q := s.polls[q].(pc := pc)]
    && s'.leases == s.leases && s'.settledBy == s.settledBy[r := settledBy]
  }

  lemma PollStepKeeps(s: Sys, s': Sys, q: nat, row: Row, pc: PollPc, settledBy: Option<nat>, m: Mode)
    requires Inv(s, m) && PollAt(s, q) && PollStep(s, s', q, row, pc, settledBy) && Grows(s, s', m)
    requires forall d: nat :: d < |s'.subs| ==> Known(s', d, s'.subs[d], m)
    requires RowOk(s', row, LatestPc(s, s.polls[q].request), settledBy, m)
    requires SameRequest(row, s.rows[s.polls[q].request]) && InFlight(row.state)
    requires PollOk(s', s.polls[q].(pc := pc), row, m)
    ensures Inv(s', m)
  {
    hide RowOk, Known;
    var r := s.polls[q].request;
    assert Elsewhere(s, s', r, m);
    forall i: nat | i < |s'.polls| && s'.polls[i].request == r ensures PollOk(s', s'.polls[i], s'.rows[r], m) {
      if i != q {
        assert PollOk(s, s.polls[i], s.rows[r], m);
        PollStays(s, s', s.polls[i], s.rows[r], m);
        PollFollows(s', s.polls[i], s.rows[r], row, m);
      }
    }
    Rebuild(s, s', r, m);
  }

  /** Only the position of a poll changes. */
  lemma PollMovedKeeps(s: Sys, q: nat, pc: PollPc, m: Mode)
    requires Inv(s, m) && PollAt(s, q) && PollOk(s, s.polls[q].(pc := pc), s.rows[s.polls[q].request], m)
    ensures Inv(PollMoved(s, q, pc), m)
  {
    PollFacts(s, q, m);
    hide Inv, RowOk, Known;
    var r, s' := s.polls[q].request, PollMoved(s, q, pc);
    assert s.rows[r := s.rows[r]] == s.rows && s.settledBy[r := s.settledBy[r]] == s.settledBy;
    SubsStay(s, s', m);
    RowStays(s, s', s.rows[r], LatestPc(s, r), s.settledBy[r], m);
    PollStays(s, s', s.polls[q].(pc := pc), s.rows[r], m);
    PollStepKeeps(s, s', q, s.rows[r], pc, s.settledBy[r], m);
  }

  lemma PollStartKeeps(s: Sys, r: nat, m: Mode)
    requires Inv(s, m) && PollStarted(s, r).Some?
    ensures Inv(PollStarted(s, r).value, m)
  {
    var s' := PollStarted(s, r).value;
    assert RequestOk(s, r, m);
    SubsStay(s, s', m);
    RowStays(s, s', s.rows[r], LatestPc(s, r), s.settledBy[r], m);
    assert Elsewhere(s, s', r, m);
    forall q: nat | q < |s'.polls| && s'.polls[q].request == r ensures PollOk(s', s'.polls[q], s'.rows[r], m) {
      if q < |s.polls| {
        assert PollOk(s, s.polls[q], s.rows[r], m);
        PollStays(s, s', s.polls[q], s.rows[r], m);
      }
    }
    Rebuild(s, s', r, m);
  }

  lemma ReadSubmissionKeeps(s: Sys, q: nat, m: Mode)
    requires Inv(s, m) && SubmissionRead(s, q).Some?
    ensures Inv(SubmissionRead(s, q).value, m)
  {
    PollFacts(s, q, m);
    var d := s.polls[q].copy.rcofId.value;
    assert LinkOk(s, s.rows[s.polls[q].request]);
    var sub := s.subs[d];
    assert Known(s, d, sub, m);
    PollMovedKeeps(s, q, SubmissionRead(s, q).value.polls[q].pc, m);
  }

  lemma AskKeeps(s: Sys, q: nat, m: Mode)
    requires Inv(s, m) && Asked(s, q).Some?
    ensures Inv(Asked(s, q).value, m)
  {
    PollFacts(s, q, m);
    PollMovedKeeps(s, q, Asked(s, q).value.polls[q].pc, m);
  }

  lemma NoAnswerKeeps(s: Sys, q: nat, m: Mode)
    requires Inv(s, m) && Unanswered(s, q).Some?
    ensures Inv(Unanswered(s, q).value, m)
  {
    PollFacts(s, q, m);
    PollMovedKeeps(s, q, Taken(s.polls[q].pc.sub), m);
  }

  lemma WriteStatusKeeps(s: Sys, q: nat, m: Mode)
    requires Inv(s, m) && StatusWritten(s, q).Some?
    ensures Inv(StatusWritten(s, q).value, m)
  {
    PollFacts(s, q, m);
    var r, d, s' := s.polls[q].request, s.polls[q].pc.d, StatusWritten(s, q).value;
    assert Known(s, d, s.subs[d], m);
    hide Inv;
    assert s.rows[r := s.rows[r]] == s.rows && s.settledBy[r := s.settledBy[r]] == s.settledBy;
    RowStays(s, s', s.rows[r], LatestPc(s, r), s.settledBy[r], m);
    ToldStays(s, s', d, Some(s.polls[q].pc.track), s.polls[q].pc.status, m);
    SubChanged(s, s', d, m);
    PollStepKeeps(s, s', q, s.rows[r], s'.polls[q].pc, s.settledBy[r], m);
  }

  lemma ApplyPollKeeps(s: Sys, q: nat, m: Mode)
    requires Inv(s, m) && PollApplied(s, q).Some?
    ensures Inv(PollApplied(s, q).value, m)
  {
    hide Inv;
    PollFacts(s, q, m);
    var r, target, s' := s.polls[q].request, s.polls[q].pc.target, PollApplied(s, q).value;
    if Rejects(s, r, target) || s.rows[r].state == target {
      PollMovedKeeps(s, q, PollDone, m);
      RaisesIrrelevant(PollMoved(s, q, PollDone), s'.raises, m);
    } else {
      AdvancedHistory(s, r, s.polls[q].copy, target);
      SubsStay(s, s', m);
      ToldStays(s, s', s.rows[r].rcofId.value, s.polls[q].pc.source, target, m);
      PcStays(s, s', LatestPc(s, r).value, s.rows[r], m);
      PollStepKeeps(s, s', q, s'.rows[r], PollDone, s.polls[q].pc.source, m);
    }
  }

  // -------------------------------------------------------------- environment

  lemma EnqueueKeeps(s: Sys, key: Key, m: Mode)
    requires Inv(s, m)
    ensures Inv(Enqueued(s, key), m)
  {
    var s' := Enqueued(s, key);
    SubsStay(s, s', m);
    forall r: nat | r < |s'.rows| ensures RequestOk(s', r, m) {
      if r < |s.rows| {
        assert RequestOk(s, r, m);
        RowStays(s, s', s.rows[r], LatestPc(s, r), s.settledBy[r], m);
      }
    }
    forall q: nat | q < |s'.polls| ensures PollOk(s', s'.polls[q], s'.rows[s'.polls[q].request], m) {
      assert PollOk(s, s.polls[q], s.rows[s.polls[q].request], m);
      PollStays(s, s', s.polls[q], s.rows[s.polls[q].request], m);
    }
  }

  lemma DecisionKeeps(s: Sys, t: nat, v: Protocol.SiiVerdict, m: Mode)
    requires Inv(s, m) && Decided(s, t, v).Some? && (m.revisable || s.verdicts[t] != Protocol.SiiReparo)
    ensures Inv(Decided(s, t, v).value, m)
  {
    var s' := Decided(s, t, v).value;
    SubsStay(s, s', m);
    forall r: nat | r < |s'.rows| ensures RequestOk(s', r, m) {
      assert RequestOk(s, r, m);
      RowStays(s, s', s.rows[r], LatestPc(s, r), s.settledBy[r], m);
    }
    forall q: nat | q < |s'.polls| ensures PollOk(s', s'.polls[q], s'.rows[s'.polls[q].request], m) {
      assert PollOk(s, s.polls[q], s.rows[s.polls[q].request], m);
      PollStays(s, s', s.polls[q], s.rows[s.polls[q].request], m);
    }
  }

  lemma ClaimKeeps(s: Sys, r: nat, m: Mode)
    requires Inv(s, m) && ClaimedBy(s, r).Some?
    ensures Inv(ClaimedBy(s, r).value, m)
  {
    var s' := ClaimedBy(s, r).value;
    assert RequestOk(s, r, m);
    SubsStay(s, s', m);
    assert Elsewhere(s, s', r, m);
    NotPolled(s, r, m);
    Rebuild(s, s', r, m);
  }

  /** Pollers follow only requests in flight. */
  lemma NotPolled(s: Sys, r: nat, m: Mode)
    requires Inv(s, m) && r < |s.rows| && !InFlight(s.rows[r].state)
    ensures forall q :: 0 <= q < |s.polls| ==> s.polls[q].request != r
  {
    forall q: nat | q < |s.polls| ensures s.polls[q].request != r {
      assert PollOk(s, s.polls[q], s.rows[s.polls[q].request], m);
    }
  }

  // ----------------------------------------------------------------- any step

  lemma PassKeeps(s: Sys, a: Action, m: Mode)
    requires Inv(s, m) && Admits(s, a, m) && Next(s, a).Some? && PassOf(a).Some?
    ensures Inv(Next(s, a).value, m)
  {
    hide Inv, LookedUp, Created, Refusing, Faulted, Posting, PostFailed, TrackRecorded, Linking, Submitting,
         Concluded, Retrying, Failing, Crashing;
    match a
    case Lookup(p) => LookupKeeps(s, p, m);
    case Create(p) => CreateKeeps(s, p, m);
    case Refuse(p) => RefuseKeeps(s, p, m);
    case Fault(p) => FaultKeeps(s, p, m);
    case Post(p) => PostKeeps(s, p, m);
    case FailPost(p, written) => FailPostKeeps(s, p, written, m);
    case RecordTrack(p) => RecordKeeps(s, p, m);
    case Link(p) => LinkKeeps(s, p, m);
    case ApplySubmitted(p) => SubmitKeeps(s, p, m);
    case Conclude(p) => ConcludeKeeps(s, p, m);
    case Retry(p) => RetryKeeps(s, p, m);
    case Fail(p) => FailKeeps(s, p, m);
    case Crash(p) => CrashKeeps(s, p, m);
  }

  lemma EnvironmentKeeps(s: Sys, a: Action, m: Mode)
    requires Inv(s, m) && Admits(s, a, m) && Next(s, a).Some? && PassOf(a).None?
    ensures Inv(Next(s, a).value, m)
  {
    hide Inv, ClaimedBy, PollStarted, SubmissionRead, Asked, Unanswered, StatusWritten, PollApplied;
    match a
    case Enqueue(key) => EnqueueKeeps(s, key, m);
    case RegisterEndpoint(_) => SameKnowledge(s, Next(s, a).value, m);
    case DeactivateEndpoint(_) => SameKnowledge(s, Next(s, a).value, m);
    case Tick(_) => SameKnowledge(s, Next(s, a).value, m);
    case SiiDecides(t, v) => DecisionKeeps(s, t, v, m);
    case Claim(r) => ClaimKeeps(s, r, m);
    case StartPoll(r) => PollStartKeeps(s, r, m);
    case ReadSubmission(q) => ReadSubmissionKeeps(s, q, m);
    case Ask(q) => AskKeeps(s, q, m);
    case NoAnswer(q) => NoAnswerKeeps(s, q, m);
    case WriteStatus(q) => WriteStatusKeeps(s, q, m);
    case ApplyPoll(q) => ApplyPollKeeps(s, q, m);
  }

  /** Every step the mode admits keeps the invariant. */
  lemma StepKeeps(s: Sys, a: Action, m: Mode)
    requires Inv(s, m) && Admits(s, a, m) && Next(s, a).Some?
    ensures Inv(Next(s, a).value, m)
  {
    hide Inv, Next, Admits;
    if PassOf(a).Some? { PassKeeps(s, a, m); } else { EnvironmentKeeps(s, a, m); }
  }

  /** A disciplined run all of whose steps the mode admits. */
  ghost predicate AdmittedRun(actions: seq<Action>, m: Mode) {
    actions == [] ||
    (AdmittedRun(actions[..|actions| - 1], m)
     && Run(actions[..|actions| - 1]).Some?
     && Admits(Run(actions[..|actions| - 1]).value, actions[|actions| - 1], m)
     && Next(Run(actions[..|actions| - 1]).value, actions[|actions| - 1]).Some?)
  }

  lemma {:induction false} RunKeeps(actions: seq<Action>, m: Mode)
    requires AdmittedRun(actions, m)
    ensures Run(actions).Some? && Inv(Run(actions).value, m)
  {
    hide Next, Admits;
    if actions != [] {
      RunKeeps(actions[..|actions| - 1], m);
      StepKeeps(Run(actions[..|actions| - 1]).value, actions[|actions| - 1], m);
    }
  }

  const ANY := Mode(true, false)

  /** Every disciplined run is admitted when verdicts may be revised and TrackIDs replaced. */
  lemma {:induction false} DisciplinedIsAdmitted(actions: seq<Action>)
    requires DisciplinedRun(actions)
    ensures AdmittedRun(actions, ANY)
  {
    hide Next, Disciplined;
    if actions != [] { DisciplinedIsAdmitted(actions[..|actions| - 1]); }
  }

  lemma {:induction false} DisciplinedRunKeeps(actions: seq<Action>)
    requires DisciplinedRun(actions)
    ensures Run(actions).Some? && Inv(Run(actions).value, ANY)
  {
    hide Run, AdmittedRun, DisciplinedRun;
    DisciplinedIsAdmitted(actions);
    RunKeeps(actions, ANY);
  }
}
