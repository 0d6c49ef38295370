/** What the protocol guarantees over every disciplined run: any number of
    workers and pollers, crashes anywhere, re-claims after lease expiry. */
module ProtocolTheorems {
  import opened Wrappers
  import opened RequestStates
  import opened DocumentTotals
  import opened EmissionDb
  import opened Protocol
  import opened ProtocolInvariant
  import opened ProtocolSteps
  import FolioLedger
  import LedgerTheorems
  import FolioStatus
  import Outbox

  // ------------------------------------------------------------ single send

  lemma {:induction false} TwoSendsCount(sends: seq<Send>, i: nat, j: nat)
    requires i < j < |sends| && sends[i].request == sends[j].request
    ensures SendCount(sends, sends[i].request) >= 2
  {
    var init := sends[..|sends| - 1];
    if j == |sends| - 1 { OneSendCounts(init, i); } else { TwoSendsCount(init, i, j); }
  }

  lemma {:induction false} OneSendCounts(sends: seq<Send>, i: nat)
    requires i < |sends|
    ensures SendCount(sends, sends[i].request) >= 1
  {
    if i < |sends| - 1 { OneSendCounts(sends[..|sends| - 1], i); }
  }

  /** No request is transmitted twice and no document is transmitted twice; what
      is transmitted is the document linked to the request. */
  lemma {:induction false} AtMostOneSend(actions: seq<Action>)
    requires DisciplinedRun(actions)
    ensures Run(actions).Some?
    ensures var s := Run(actions).value;
            forall i, j :: 0 <= i < j < |s.sends| ==>
              s.sends[i].request != s.sends[j].request && s.sends[i].doc != s.sends[j].doc
    ensures var s := Run(actions).value;
            forall i :: 0 <= i < |s.sends| ==>
              s.sends[i].request < |s.db.rows| && s.db.rows[s.sends[i].request].dteId == Some(s.sends[i].doc)
              && s.db.rows[s.sends[i].request].transmissionStartedAt.Some?
  {
    hide Run, DisciplinedRun;
    RunKeeps(actions, true);
    var s := Run(actions).value;
    forall i, j | 0 <= i < j < |s.sends|
      ensures s.sends[i].request != s.sends[j].request && s.sends[i].doc != s.sends[j].doc
    {
      if s.sends[i].request == s.sends[j].request { TwoSendsCount(s.sends, i, j); }
      assert RequestOk(ViewOf(s, s.sends[i].request), true);
    }
    forall i | 0 <= i < |s.sends|
      ensures s.db.rows[s.sends[i].request].transmissionStartedAt.Some?
    {
      OneSendCounts(s.sends, i);
      assert RequestOk(ViewOf(s, s.sends[i].request), true);
    }
  }

  // ------------------------------------------- requests, documents, folios

  predicate Linked(s: Sys, r: nat, d: nat) { r < |s.db.rows| && s.db.rows[r].dteId == Some(d) }

  ghost predicate HasRequest(s: Sys, d: nat) { exists r: nat :: Linked(s, r, d) }

  /** Each linked request has a document of its own type, each document one request,
      each document a folio of its own, and the folios issued are those of documents. */
  ghost predicate OneToOne(s: Sys) {
    && (forall r: nat, k: nat, d: nat :: Linked(s, r, d) && Linked(s, k, d) ==> r == k)
    && (forall r: nat, d: nat :: Linked(s, r, d) ==>
          d < |s.db.docs| && s.db.docs[d].typ == s.db.rows[r].payload.documentType)
    && (forall d: nat :: d < |s.db.docs| ==> HasRequest(s, d))
    && FoliosMatch(s.db)
  }

  ghost predicate FoliosMatch(db: Db) {
    && (forall d, e :: 0 <= d < e < |db.docs| ==>
        (db.docs[d].typ, db.docs[d].folio) != (db.docs[e].typ, db.docs[e].folio))
    && (forall t: int, f: int :: LedgerTheorems.Issued(FolioLedger.Cafs(db.config), t, f) <==>
        (t, f) in DocLog(db.docs))
  }

  lemma InvariantFoliosMatch(db: Db)
    requires FoliosOk(db)
    ensures FoliosMatch(db)
  {
    forall d, e | 0 <= d < e < |db.docs|
      ensures (db.docs[d].typ, db.docs[d].folio) != (db.docs[e].typ, db.docs[e].folio)
    {
      assert DocLog(db.docs)[d] != DocLog(db.docs)[e];
    }
    forall t: int, f: int
      ensures LedgerTheorems.Issued(FolioLedger.Cafs(db.config), t, f) <==> (t, f) in DocLog(db.docs)
    {
      LedgerTheorems.LoggedIffUsed(LedgerOf(db), t, f);
    }
  }

  lemma InvariantIsOneToOne(s: Sys)
    requires Inv(s, true)
    ensures OneToOne(s)
  {
    InvariantFoliosMatch(s.db);
    forall d: nat | d < |s.db.docs| ensures HasRequest(s, d) {
      assert Linked(s, s.owners[d], d);
    }
    forall r: nat, d: nat | Linked(s, r, d)
      ensures d < |s.db.docs| && s.db.docs[d].typ == s.db.rows[r].payload.documentType
    {
      assert RequestOk(ViewOf(s, r), true);
    }
    hide FoliosMatch, FoliosOk, RequestOk;
  }

  /** Linked requests, documents and consumed folios correspond one to one in every reachable state. */
  lemma {:induction false} LinksAreOneToOne(actions: seq<Action>)
    requires DisciplinedRun(actions)
    ensures Run(actions).Some? && OneToOne(Run(actions).value)
  {
    hide Run, DisciplinedRun;
    RunKeeps(actions, true);
    InvariantIsOneToOne(Run(actions).value);
  }

  /** Payloads, promised totals, links and document amounts all stay; rows and documents may be added. */
  ghost predicate LinksFixed(s: Sys, s': Sys) {
    && |s'.db.rows| >= |s.db.rows| && |s'.db.docs| >= |s.db.docs|
    && (forall r :: 0 <= r < |s.db.rows| ==>
          && s'.db.rows[r].payload == s.db.rows[r].payload && s'.db.rows[r].serverTotals == s.db.rows[r].serverTotals
          && (s.db.rows[r].dteId.Some? ==> s'.db.rows[r].dteId == s.db.rows[r].dteId))
    && (forall d :: 0 <= d < |s.db.docs| ==>
          s'.db.docs[d].typ == s.db.docs[d].typ && s'.db.docs[d].folio == s.db.docs[d].folio
            && s'.db.docs[d].amount == s.db.docs[d].amount)
  }

  /** As `LinksFixed`, and nothing is linked anew. */
  ghost predicate SameLinks(s: Sys, s': Sys) {
    && LinksFixed(s, s') && |s'.db.rows| == |s.db.rows|
    && (forall r :: 0 <= r < |s.db.rows| ==> s'.db.rows[r].dteId == s.db.rows[r].dteId)
  }

  /** States and histories untouched, no event recorded. */
  ghost predicate Quiet(s: Sys, s': Sys) {
    && |s'.db.rows| == |s.db.rows|
    && (forall k :: 0 <= k < |s.db.rows| ==>
          s'.db.rows[k].state == s.db.rows[k].state && s'.db.rows[k].history == s.db.rows[k].history)
    && s'.db.outbox.events == s.db.outbox.events && s'.db.outbox.deliveries == s.db.outbox.deliveries
  }

  /** One request moved along an allowed transition; its history and the outbox record it. */
  ghost predicate Loud(s: Sys, s': Sys, r: nat, target: PublicState) {
    && |s'.db.rows| == |s.db.rows| && r < |s.db.rows|
    && target != s.db.rows[r].state && target in AllowedTransitions(s.db.rows[r].state)
    && s'.db.rows[r].state == target
    && s'.db.rows[r].history == s.db.rows[r].history + [HistoryEntry(target, Some(s.db.rows[r].state), s.clock)]
    && (forall k :: 0 <= k < |s.db.rows| && k != r ==> s'.db.rows[k] == s.db.rows[k])
    && s'.db.outbox == if Notifiable(target) then Outbox.Emitted(s.db.outbox, r, target, s.clock) else s.db.outbox
  }

  predicate Repositions(a: Action) {
    a.Load? || a.ReadPrepared? || a.Inspect? || a.OpenDocument? || a.AbortSend? || a.Crash? || a.Post?
  }

  predicate Closes(a: Action) { a.Retry? || a.Decide? || a.Submit? || a.Quarantine? }

  predicate Writes(a: Action) { a.Fence? || a.RecordTrack? || a.FailRecord? }

  lemma RepositionsKeepDb(s: Sys, a: Action)
    requires Repositions(a) && Next(s, a).Some?
    ensures Next(s, a).value.db == s.db && Next(s, a).value.raises == s.raises
    ensures SameLinks(s, Next(s, a).value) && Quiet(s, Next(s, a).value)
  {}

  lemma CloseWrites(s: Sys, p: nat, copy: Row, target: PublicState)
    requires PassAt(s, p) && OutcomeOf(s.db, s.passes[p].request, target) == Changed
    requires var row := s.db.rows[s.passes[p].request];
             copy.payload == row.payload && copy.serverTotals == row.serverTotals && copy.dteId == row.dteId
    ensures var s' := Applying(s, p, copy, target, Done); SameLinks(s, s') && Loud(s, s', s.passes[p].request, target)
  {}

  lemma RetryWrites(s: Sys, p: nat) returns (loud: bool)
    requires Inv(s, true) && Holds(s, p) && Retrying(s, p).Some?
    ensures var s' := Retrying(s, p).value;
            SameLinks(s, s') && if loud then Loud(s, s', s.passes[p].request, PublicState.Failed) else Quiet(s, s')
  {
    hide Inv, RequestOk;
    HolderProcessing(s, p, true);
    hide PcOk;
    var next := RetryCopy(s.passes[p].pc.copy, s.passes[p].pc.code);
    loud := next.attempts >= EffectiveMax(next);
    if loud { CloseWrites(s, p, next, PublicState.Failed); }
  }

  lemma DecideWrites(s: Sys, p: nat) returns (loud: bool)
    requires Inv(s, true) && Holds(s, p) && Deciding(s, p).Some?
    ensures var s' := Deciding(s, p).value;
            SameLinks(s, s') && if loud then Loud(s, s', s.passes[p].request, Submitted) else Quiet(s, s')
  {
    hide Inv;
    HolderProcessing(s, p, true);
    hide PcOk;
    loud := s.passes[p].pc.doc.trackId.Some?;
    if loud { CloseWrites(s, p, s.passes[p].pc.copy, Submitted); }
  }

  lemma SubmitWrites(s: Sys, p: nat)
    requires Inv(s, true) && Holds(s, p) && Submitting(s, p).Some?
    ensures var s' := Submitting(s, p).value; SameLinks(s, s') && Loud(s, s', s.passes[p].request, Submitted)
  {
    hide Inv, RequestOk;
    HolderProcessing(s, p, true);
    CloseWrites(s, p, s.passes[p].pc.copy, Submitted);
  }

  lemma QuarantineWrites(s: Sys, p: nat)
    requires Inv(s, true) && Holds(s, p) && Quarantined(s, p).Some?
    ensures var s' := Quarantined(s, p).value; SameLinks(s, s') && Loud(s, s', s.passes[p].request, PublicState.Failed)
  {
    hide Inv, RequestOk;
    HolderProcessing(s, p, true);
    CloseWrites(s, p, QuarantineCopy(s.passes[p].pc.copy), PublicState.Failed);
  }

  lemma ClosingWrites(s: Sys, a: Action) returns (loud: bool, r: nat, target: PublicState)
    requires Inv(s, true) && Closes(a) && Disciplined(s, a) && Next(s, a).Some?
    ensures SameLinks(s, Next(s, a).value)
    ensures if loud then Loud(s, Next(s, a).value, r, target) else Quiet(s, Next(s, a).value)
  {
    hide SameLinks, Loud, Quiet, Inv;
    loud, r, target := true, s.passes[PassOf(a).value].request, PublicState.Failed;
    match a {
      case Retry(p) => loud := RetryWrites(s, p);
      case Decide(p) => loud := DecideWrites(s, p); target := Submitted;
      case Submit(p) => SubmitWrites(s, p); target := Submitted;
      case Quarantine(p) => QuarantineWrites(s, p);
    }
  }

  lemma FenceWrites(s: Sys, p: nat)
    requires Inv(s, true) && Holds(s, p) && Fencing(s, p).Some?
    ensures SameLinks(s, Fencing(s, p).value) && Quiet(s, Fencing(s, p).value)
  {
    hide Inv, RequestOk;
    HolderProcessing(s, p, true);
  }

  lemma RecordWrites(s: Sys, p: nat)
    requires Inv(s, true) && Holds(s, p) && TrackRecorded(s, p).Some?
    ensures SameLinks(s, TrackRecorded(s, p).value) && Quiet(s, TrackRecorded(s, p).value)
  {
    hide Inv, RequestOk;
    HolderProcessing(s, p, true);
  }

  lemma FailRecordWrites(s: Sys, p: nat, written: bool)
    requires Inv(s, true) && Holds(s, p) && RecordFailed(s, p, written).Some?
    ensures SameLinks(s, RecordFailed(s, p, written).value) && Quiet(s, RecordFailed(s, p, written).value)
  {
    hide Inv, RequestOk;
    HolderProcessing(s, p, true);
  }

  lemma WritingFixesLinks(s: Sys, a: Action)
    requires Inv(s, true) && Writes(a) && Disciplined(s, a) && Next(s, a).Some?
    ensures SameLinks(s, Next(s, a).value) && Quiet(s, Next(s, a).value)
  {
    hide SameLinks, Quiet, Inv;
    match a
    case Fence(p) => FenceWrites(s, p);
    case RecordTrack(p) => RecordWrites(s, p);
    case FailRecord(p, written) => FailRecordWrites(s, p, written);
  }

  lemma PrepareFixesLinks(s: Sys, p: nat, env: PrepareEnv)
    requires Inv(s, true) && Holds(s, p) && Preparing(s, p, env).Some?
    ensures LinksFixed(s, Preparing(s, p, env).value)
  {
    hide Inv, RequestOk;
    HolderProcessing(s, p, true);
    if Prepared(s.db, s.db.rows[s.passes[p].request], env).Ok? {
      var _ := PreparedAdds(s.db, s.db.rows[s.passes[p].request], env);
    }
  }

  lemma WriteRelevantWrites(s: Sys, q: nat)
    requires Inv(s, true) && RelevantWritten(s, q).Some?
    ensures SameLinks(s, RelevantWritten(s, q).value)
  {
    hide Inv, RequestOk;
    PollFacts(s, q, true);
  }

  lemma ApplyPollWrites(s: Sys, q: nat)
    requires Inv(s, true) && PollApplied(s, q).Some?
    ensures SameLinks(s, PollApplied(s, q).value)
  {
    hide Inv, RequestOk, Outbox.Emitted;
    PollFacts(s, q, true);
  }

  lemma OutsideFixesLinks(s: Sys, a: Action)
    requires Inv(s, true) && PassOf(a).None? && Next(s, a).Some? && !a.Enqueue?
    ensures SameLinks(s, Next(s, a).value)
  {
    hide Inv, RelevantWritten, PollApplied;
    if a.WriteRelevant? { WriteRelevantWrites(s, a.q); }
    else if a.ApplyPoll? { ApplyPollWrites(s, a.q); }
  }

  lemma NeverConcludes(s: Sys, a: Action, revisable: bool)
    requires Inv(s, revisable) && Disciplined(s, a) && Next(s, a).Some?
    ensures !a.Conclude?
  {
    hide Inv, Concluded;
    if a.Conclude? { NeverConcluding(s, a.p, revisable); }
  }

  /** Only an acceptance adds a request, and only a prepare links one. */
  lemma LinksStay(s: Sys, a: Action)
    requires Inv(s, true) && Disciplined(s, a) && Next(s, a).Some? && !a.Enqueue? && !a.Prepare?
    ensures SameLinks(s, Next(s, a).value)
  {
    hide Inv, Next, SameLinks, Loud, Quiet;
    NeverConcludes(s, a, true);
    if Repositions(a) { RepositionsKeepDb(s, a); }
    else if Closes(a) { var _, _, _ := ClosingWrites(s, a); }
    else if PassOf(a).Some? { WritingFixesLinks(s, a); }
    else { OutsideFixesLinks(s, a); }
  }

  /** A request keeps its payload and its document for good, and a document its
      type, folio and amount: no step gives a request a second document. */
  lemma LinksArePermanent(s: Sys, a: Action)
    requires Inv(s, true) && Disciplined(s, a) && Next(s, a).Some?
    ensures LinksFixed(s, Next(s, a).value)
  {
    if a.Prepare? { PrepareFixesLinks(s, a.p, a.env); } else if !a.Enqueue? { LinksStay(s, a); }
  }

  /** The internal checks after a reservation never fail: the reserved folio's CAF
      is found, it is the one that issued the folio, and it allows the folio. */
  lemma ReservedFolioIsSignable(db: Db, row: Row, env: PrepareEnv)
    requires FoliosOk(db)
    ensures Prepared(db, row, env) != Err(NoCafForFolio) && Prepared(db, row, env) != Err(FolioNotAllowed)
  {
    if FolioLedger.Reserved(db.config, row.payload.documentType).Ok? {
      LedgerTheorems.LookupFindsIssuer(db.config, row.payload.documentType);
    }
  }

  /** The folio report of any reachable state agrees with the allocator. */
  lemma {:induction false} ReportAgreesInEveryRun(actions: seq<Action>, thresholds: map<int, real>, t: int)
    requires DisciplinedRun(actions)
    requires Run(actions).Some? && FolioLedger.HasType(FolioLedger.Cafs(Run(actions).value.db.config), t)
    ensures var db := Run(actions).value.db;
            var cafs := FolioLedger.Cafs(db.config);
            var report := FolioStatus.StatusOf(cafs, DocLog(db.docs), thresholds, t);
            && report.utilized == LedgerTheorems.CountType(DocLog(db.docs), t)
            && report.remaining == LedgerTheorems.Remaining(cafs, t)
            && report.totalAuthorized == report.utilized + report.remaining
            && (report.remaining == 0 <==> FolioLedger.Reserved(db.config, t) == Err(FolioLedger.Exhausted))
  {
    hide Run, DisciplinedRun;
    RunKeeps(actions, true);
    FolioStatus.ReportAgreesWithLedger(LedgerOf(Run(actions).value.db), thresholds, t);
  }

  // ------------------------------------------------------------ termination

  /** A request is claimed at most five times plus once per pass that was cut
      short, and its attempts never exceed the maximum. */
  lemma {:induction false} ClaimsAreBounded(actions: seq<Action>, r: nat)
    requires DisciplinedRun(actions) && Run(actions).Some? && r < |Run(actions).value.db.rows|
    ensures var s := Run(actions).value;
            && r < |s.books| && s.books[r].claims <= MAX_ATTEMPTS + s.books[r].aborted
            && s.db.rows[r].attempts <= MAX_ATTEMPTS == s.db.rows[r].maxAttempts
  {
    hide Run, DisciplinedRun;
    RunKeeps(actions, true);
    assert RequestOk(ViewOf(Run(actions).value, r), true);
  }

  /** A retry that does not exhaust the attempts waits the backoff of its attempt
      number, never less than the previous one, and consumed no folio. */
  lemma RetryWaits(s: Sys, p: nat)
    requires Inv(s, true) && Holds(s, p) && Retrying(s, p).Some?
    ensures var r := s.passes[p].request; var row, row' := s.db.rows[r], Retrying(s, p).value.db.rows[r];
            && row'.attempts == row.attempts + 1 && row'.dteId.None?
            && (if row'.attempts == MAX_ATTEMPTS then row'.state == PublicState.Failed
                else && row'.state == Processing && row'.nextAttemptAt == s.clock + Backoff(row'.attempts)
                     && (row.attempts >= 1 ==> Backoff(row'.attempts) >= Backoff(row.attempts)))
            && Retrying(s, p).value.db.docs == s.db.docs && Retrying(s, p).value.db.config == s.db.config
  {
    hide Inv, RequestOk;
    HolderProcessing(s, p, true);
    RetryKeeps(s, p, true);
  }

  // --------------------------------------------------- kinds of state change

  lemma PrepareIsQuiet(s: Sys, p: nat, env: PrepareEnv)
    requires Inv(s, true) && Holds(s, p) && Preparing(s, p, env).Some?
    ensures Quiet(s, Preparing(s, p, env).value)
  {
    hide Inv, RequestOk;
    HolderProcessing(s, p, true);
    if Prepared(s.db, s.db.rows[s.passes[p].request], env).Ok? {
      var _ := PreparedAdds(s.db, s.db.rows[s.passes[p].request], env);
    }
  }

  lemma PollingKind(s: Sys, q: nat) returns (loud: bool, r: nat, target: PublicState)
    requires Inv(s, true) && PollApplied(s, q).Some?
    ensures if loud then Loud(s, PollApplied(s, q).value, r, target) else Quiet(s, PollApplied(s, q).value)
  {
    hide Inv, RequestOk;
    PollOutcome(s, q, true);
    r, target := s.polls[q].request, s.polls[q].pc.target;
    loud := OutcomeOf(s.db, r, target) == Changed;
  }

  lemma UnheldKind(s: Sys, a: Action) returns (loud: bool, r: nat, target: PublicState)
    requires Inv(s, true) && Disciplined(s, a) && Next(s, a).Some?
    requires (PassOf(a).None? || a.Prepare?) && !a.Enqueue? && !a.Claim?
    ensures if loud then Loud(s, Next(s, a).value, r, target) else Quiet(s, Next(s, a).value)
  {
    hide Inv, Preparing, PollApplied, Loud;
    loud, r, target := false, 0, Queued;
    if a.Prepare? { PrepareIsQuiet(s, a.p, a.env); }
    else if a.ApplyPoll? { loud, r, target := PollingKind(s, a.q); }
  }

  /** Classifies any disciplined step that neither creates nor claims a request. */
  lemma StepKind(s: Sys, a: Action) returns (loud: bool, r: nat, target: PublicState)
    requires Inv(s, true) && Disciplined(s, a) && Next(s, a).Some? && !a.Enqueue? && !a.Claim?
    ensures if loud then Loud(s, Next(s, a).value, r, target) else Quiet(s, Next(s, a).value)
  {
    hide Inv, Next, SameLinks, Loud, Quiet;
    loud, r, target := false, 0, Queued;
    NeverConcludes(s, a, true);
    if Repositions(a) { RepositionsKeepDb(s, a); }
    else if Closes(a) { loud, r, target := ClosingWrites(s, a); }
    else if PassOf(a).Some? && !a.Prepare? { WritingFixesLinks(s, a); }
    else { loud, r, target := UnheldKind(s, a); }
  }

  // ------------------------------------------------------------------ graph

  /** Every committed state change of a disciplined step, the claim's included, is an edge of the table. */
  lemma ChangesAreEdges(s: Sys, a: Action, k: nat)
    requires Inv(s, true) && Disciplined(s, a) && Next(s, a).Some? && k < |s.db.rows|
    ensures k < |Next(s, a).value.db.rows|
    ensures IsTransitionAllowed(s.db.rows[k].state, Next(s, a).value.db.rows[k].state)
  {
    if !a.Enqueue? && !a.Claim? {
      var loud, r, target := StepKind(s, a);
    }
  }

  /** Histories of reachable states are paths of the graph that end in the current state. */
  lemma {:induction false} HistoriesArePaths(actions: seq<Action>, r: nat)
    requires DisciplinedRun(actions) && Run(actions).Some? && r < |Run(actions).value.db.rows|
    ensures HistoryOk(Run(actions).value.db.rows[r])
  {
    hide Run, DisciplinedRun;
    RunKeeps(actions, true);
    assert RequestOk(ViewOf(Run(actions).value, r), true);
  }

  /** accepted, rejected and cancelled are absorbing: along a run the state never leaves them. */
  lemma {:induction false} SettledForever(actions: seq<Action>, n: nat, r: nat)
    requires DisciplinedRun(actions) && n <= |actions|
    requires DisciplinedRun(actions[..n]) && Run(actions[..n]).Some? && r < |Run(actions[..n]).value.db.rows|
    requires Terminal(Run(actions[..n]).value.db.rows[r].state)
    ensures Run(actions).Some? && r < |Run(actions).value.db.rows|
    ensures Run(actions).value.db.rows[r].state == Run(actions[..n]).value.db.rows[r].state
  {
    hide Next;
    if n < |actions| {
      var init := actions[..|actions| - 1];
      assert init[..n] == actions[..n];
      SettledForever(init, n, r);
      RunKeeps(init, true);
      ChangesAreEdges(Run(init).value, actions[|actions| - 1], r);
    } else {
      assert actions[..n] == actions;
    }
  }

  // --------------------------------------------------------------- rejections

  ghost predicate OutdatedObjection(e: Raise) {
    e.byPoll && e.to == Observed && (e.from == Accepted || e.from == Rejected)
  }

  lemma ClosingRaisesNothing(s: Sys, a: Action, revisable: bool)
    requires Inv(s, revisable) && Closes(a) && Disciplined(s, a) && Next(s, a).Some?
    ensures Next(s, a).value.raises == s.raises
  {
    hide Inv;
    match a
    case Retry(p) => RetryKeeps(s, p, revisable);
    case Decide(p) => DecideKeeps(s, p, revisable);
    case Submit(p) => SubmitKeeps(s, p, revisable);
    case Quarantine(p) => QuarantineKeeps(s, p, revisable);
  }

  lemma StepRaises(s: Sys, a: Action, revisable: bool)
    requires Inv(s, revisable) && Disciplined(s, a) && Next(s, a).Some?
    ensures var s' := Next(s, a).value;
            s'.raises == s.raises
            || (revisable && |s'.raises| == |s.raises| + 1 && s'.raises[..|s.raises|] == s.raises
                && OutdatedObjection(s'.raises[|s.raises|]))
  {
    hide Inv, Next;
    NeverConcludes(s, a, revisable);
    if Closes(a) { ClosingRaisesNothing(s, a, revisable); }
    else if a.ApplyPoll? { PollRaises(s, a.q, revisable); }
    else { OthersRaiseNothing(s, a); }
  }

  lemma OthersRaiseNothing(s: Sys, a: Action)
    requires Next(s, a).Some? && !Closes(a) && !a.Conclude? && !a.ApplyPoll?
    ensures Next(s, a).value.raises == s.raises
  {
    hide PreparedAndLinked;
  }

  lemma PollRaises(s: Sys, q: nat, revisable: bool)
    requires Inv(s, revisable) && Next(s, ApplyPoll(q)).Some?
    ensures var s' := Next(s, ApplyPoll(q)).value;
            s'.raises == s.raises
            || (revisable && |s'.raises| == |s.raises| + 1 && s'.raises[..|s.raises|] == s.raises
                && OutdatedObjection(s'.raises[|s.raises|]))
  {
    hide Inv, StateApplied;
    PollOutcome(s, q, revisable);
  }

  ghost predicate AllOutdated(raises: seq<Raise>) {
    forall i :: 0 <= i < |raises| ==> OutdatedObjection(raises[i])
  }

  lemma AllOutdatedExtends(old_: seq<Raise>, new_: seq<Raise>)
    requires AllOutdated(old_)
    requires new_ == old_ || (|new_| == |old_| + 1 && new_[..|old_|] == old_ && OutdatedObjection(new_[|old_|]))
    ensures AllOutdated(new_)
  {
    forall i | 0 <= i < |new_| ensures OutdatedObjection(new_[i]) {
      if i < |old_| { assert new_[i] == old_[i]; }
    }
  }

  /** INVALID_STATE_TRANSITION is raised only by a poller that brings an objection
      to a request already accepted or rejected. */
  lemma {:induction false} OnlyOutdatedObjectionsRaise(actions: seq<Action>)
    requires DisciplinedRun(actions)
    ensures Run(actions).Some? && AllOutdated(Run(actions).value.raises)
  {
    hide Next;
    if actions != [] {
      var init := actions[..|actions| - 1];
      OnlyOutdatedObjectionsRaise(init);
      RunKeeps(init, true);
      StepRaises(Run(init).value, actions[|actions| - 1], true);
      AllOutdatedExtends(Run(init).value.raises, Run(actions).value.raises);
    }
  }

  /** With verdicts that never change once given, no transition is ever rejected. */
  lemma {:induction false} FinalVerdictsNeverRaise(actions: seq<Action>)
    requires DisciplinedRun(actions) && NoRevision(actions)
    ensures Run(actions).Some? && Run(actions).value.raises == []
  {
    hide Next;
    if actions != [] {
      var init := actions[..|actions| - 1];
      FinalVerdictsNeverRaise(init);
      RunKeeps(init, false);
      StepRaises(Run(init).value, actions[|actions| - 1], false);
    }
  }

  // -------------------------------------------------------- repeated changes

  /** Applying the same state again changes nothing and records no second event. */
  lemma ApplyTwiceIsOnce(db: Db, r: nat, copy: Row, other: Row, target: PublicState, now: int, later: int)
    requires r < |db.rows| && IsTransitionAllowed(db.rows[r].state, target)
    ensures var once := StateApplied(db, r, copy, target, now);
            && once.rows[r].state == target
            && StateApplied(once, r, other, target, later) == once
  {}

  // ----------------------------------------------------------------- amounts

  /** Stored totals are accepted ones, and every document carries the amount signed for its request. */
  ghost predicate AmountsOk(s: Sys) {
    && (forall r: nat :: r < |s.db.rows| ==> AcceptedRow(s.db.rows[r]))
    && (forall r: nat :: r < |s.db.rows| ==> SignedRow(s, r))
  }

  ghost predicate SignedRow(s: Sys, r: nat)
    requires r < |s.db.rows|
  {
    HasDoc(s, s.db.rows[r]) ==> SignedAmount(s.db.rows[r], s.db.docs[s.db.rows[r].dteId.value])
  }

  ghost predicate AcceptedRow(row: Row) {
    exists notes :: Accept(row.payload, notes) == Ok(row.serverTotals)
  }

  ghost predicate SignedAmount(row: Row, doc: Doc) {
    var signed := SignedTotals(row.payload, row.serverTotals.totalAmount);
    signed.Ok? && doc.amount == signed.value.totalAmount
  }

  lemma EnqueueKeepsAmounts(s: Sys, payload: Payload, notes: bool)
    requires AmountsOk(s) && Enqueued(s, payload, notes).Some?
    ensures AmountsOk(Enqueued(s, payload, notes).value)
  {
    var s' := Enqueued(s, payload, notes).value;
    forall r: nat | r < |s'.db.rows| ensures AcceptedRow(s'.db.rows[r]) && SignedRow(s', r) {
      if r < |s.db.rows| { assert AcceptedRow(s.db.rows[r]) && SignedRow(s, r); }
      else { assert Accept(s'.db.rows[r].payload, notes) == Ok(s'.db.rows[r].serverTotals); }
    }
  }

  lemma SameRows(s: Sys, a: Action)
    requires Inv(s, true) && Disciplined(s, a) && Next(s, a).Some? && !a.Enqueue?
    ensures |Next(s, a).value.db.rows| == |s.db.rows|
  {
    if !a.Claim? { var _, _, _ := StepKind(s, a); }
  }

  lemma StepKeepsAmounts(s: Sys, a: Action)
    requires Inv(s, true) && AmountsOk(s) && Disciplined(s, a) && Next(s, a).Some?
    ensures AmountsOk(Next(s, a).value)
  {
    if a.Enqueue? {
      EnqueueKeepsAmounts(s, a.payload, a.allowNotes);
    } else {
      SameRows(s, a);
      LinksArePermanent(s, a);
      forall r: nat | r < |s.db.rows|
        ensures AcceptedRow(Next(s, a).value.db.rows[r]) && SignedRow(Next(s, a).value, r)
      {
        AcceptedStays(s.db.rows[r], Next(s, a).value.db.rows[r]);
        NewAmount(s, a, r);
      }
    }
  }

  lemma AcceptedStays(row: Row, row': Row)
    requires AcceptedRow(row) && row'.payload == row.payload && row'.serverTotals == row.serverTotals
    ensures AcceptedRow(row')
  {
    var notes :| Accept(row.payload, notes) == Ok(row.serverTotals);
    assert Accept(row'.payload, notes) == Ok(row'.serverTotals);
  }

  lemma SignedStays(s: Sys, s': Sys, r: nat)
    requires LinksFixed(s, s') && r < |s.db.rows| && HasDoc(s, s.db.rows[r]) && SignedRow(s, r)
    ensures SignedRow(s', r)
  {}

  lemma NewAmount(s: Sys, a: Action, r: nat)
    requires Inv(s, true) && Disciplined(s, a) && Next(s, a).Some? && LinksFixed(s, Next(s, a).value)
    requires r < |s.db.rows| && SignedRow(s, r)
    ensures SignedRow(Next(s, a).value, r)
  {
    if s.db.rows[r].dteId.Some? {
      SignedStays(s, Next(s, a).value, r);
    } else if Next(s, a).value.db.rows[r].dteId.Some? {
      LinkedByPrepare(s, a, r);
      PreparedSigns(s, a.p, a.env);
    }
  }

  lemma PreparedSigns(s: Sys, p: nat, env: PrepareEnv)
    requires Inv(s, true) && Holds(s, p) && Preparing(s, p, env).Some?
    requires Prepared(s.db, s.db.rows[s.passes[p].request], env).Ok?
    ensures var s' := Preparing(s, p, env).value;
            s.passes[p].request < |s'.db.rows| && SignedRow(s', s.passes[p].request)
  {
    hide Inv, RequestOk;
    HolderProcessing(s, p, true);
    var _ := PreparedAdds(s.db, s.db.rows[s.passes[p].request], env);
  }

  lemma PrepareLinksOwn(s: Sys, p: nat, env: PrepareEnv, r: nat)
    requires Inv(s, true) && Holds(s, p) && Preparing(s, p, env).Some?
    requires r < |s.db.rows| && s.db.rows[r].dteId.None?
    requires r < |Preparing(s, p, env).value.db.rows| && Preparing(s, p, env).value.db.rows[r].dteId.Some?
    ensures s.passes[p].request == r && Prepared(s.db, s.db.rows[r], env).Ok?
  {
    hide Inv, RequestOk;
    HolderProcessing(s, p, true);
    if Prepared(s.db, s.db.rows[s.passes[p].request], env).Ok? {
      var _ := PreparedAdds(s.db, s.db.rows[s.passes[p].request], env);
    }
  }

  /** Only a successful prepare of its own pass links a request. */
  lemma LinkedByPrepare(s: Sys, a: Action, r: nat)
    requires Inv(s, true) && Disciplined(s, a) && Next(s, a).Some?
    requires r < |s.db.rows| && s.db.rows[r].dteId.None? && r < |Next(s, a).value.db.rows|
             && Next(s, a).value.db.rows[r].dteId.Some?
    ensures a.Prepare? && s.passes[a.p].request == r && Prepared(s.db, s.db.rows[r], a.env).Ok?
  {
    if a.Prepare? { PrepareLinksOwn(s, a.p, a.env, r); } else if !a.Enqueue? { LinksStay(s, a); }
  }

  lemma {:induction false} AmountsOkInEveryRun(actions: seq<Action>)
    requires DisciplinedRun(actions)
    ensures Run(actions).Some? && AmountsOk(Run(actions).value)
  {
    hide Next;
    if actions != [] {
      var init := actions[..|actions| - 1];
      AmountsOkInEveryRun(init);
      RunKeeps(init, true);
      StepKeepsAmounts(Run(init).value, actions[|actions| - 1]);
    }
  }

  /** In every reachable state, the amount of a request's document is the total
      promised with its 202, exactly when its retentions do not sum to a negative amount. */
  lemma {:induction false} DocumentsCarryThePromise(actions: seq<Action>, r: nat)
    requires DisciplinedRun(actions)
    requires Run(actions).Some? && r < |Run(actions).value.db.rows|
             && HasDoc(Run(actions).value, Run(actions).value.db.rows[r])
    ensures var db := Run(actions).value.db; var row := db.rows[r];
            db.docs[row.dteId.value].amount == row.serverTotals.totalAmount <==>
              RetentionSum(row.payload.taxRetentions) >= 0
  {
    hide Run, DisciplinedRun;
    AmountsOkInEveryRun(actions);
    var row := Run(actions).value.db.rows[r];
    assert AcceptedRow(row) && SignedRow(Run(actions).value, r);
    var notes :| Accept(row.payload, notes) == Ok(row.serverTotals);
    PromisedIsSigned(row.payload, notes, row.serverTotals.totalAmount);
  }
}
