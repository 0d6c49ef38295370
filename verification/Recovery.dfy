/** One uninterrupted pass, step by step in the protocol, leaves exactly what
    `Processor.Process` leaves; and from every reachable state such a pass
    settles the request it claims or schedules its retry. */
module Recovery {
  import opened Wrappers
  import opened RequestStates
  import opened DocumentTotals
  import opened EmissionDb
  import opened Protocol
  import opened ProtocolInvariant
  import opened ProtocolSteps
  import opened ProtocolTheorems
  import opened Processor
  import Outbox

  // ------------------------------------------------------ the pass's script

  function AnswerOf(outcome: SendOutcome): Option<nat> {
    match outcome
    case NotPosted => None
    case NoAnswer(_) => None
    case TrackLost(t, _) => Some(t)
    case AuditLost(t, _) => Some(t)
    case Tracked(t) => Some(t)
  }

  predicate WrittenDown(outcome: SendOutcome) {
    (outcome.NoAnswer? || outcome.TrackLost? || outcome.AuditLost?) && outcome.written
  }

  predicate Ended(pc: Pc) { pc.Done? || pc.Crashed? }

  /** What a pass that is not interrupted does next. */
  function NextStep(pc: Pc, p: nat, env: PrepareEnv, outcome: SendOutcome): Action
    requires !Ended(pc)
  {
    match pc
    case Claimed => Load(p)
    case Loaded(copy) => if copy.dteId.Some? then Inspect(p) else Prepare(p, env)
    case RetryPending(_, _) => Retry(p)
    case Linked(_, _) => ReadPrepared(p)
    case Inspecting(_, _) => Decide(p)
    case Concluding(_, _) => Conclude(p)
    case Ready(_) => Fence(p)
    case Marked(_) => OpenDocument(p)
    case Sending(_, _) => if outcome.NotPosted? then AbortSend(p) else Post(p, AnswerOf(outcome))
    case Posted(_, _, _) =>
      if outcome.Tracked? || outcome.AuditLost? then RecordTrack(p) else FailRecord(p, WrittenDown(outcome))
    case Recorded(_, _) => if outcome.Tracked? then Submit(p) else FailRecord(p, WrittenDown(outcome))
    case Quarantining(_) => Quarantine(p)
  }

  /** Steps left, at most. */
  function Rank(pc: Pc): nat {
    match pc
    case Claimed => 9
    case Loaded(_) => 8
    case RetryPending(_, _) => 1
    case Linked(_, _) => 7
    case Inspecting(_, _) => 7
    case Concluding(_, _) => 1
    case Ready(_) => 6
    case Marked(_) => 5
    case Sending(_, _) => 4
    case Posted(_, _, _) => 3
    case Recorded(_, _) => 2
    case Quarantining(_) => 1
    case Done => 0
    case Crashed => 0
  }

  /** The answer the pass carries is the one the outcome gives. */
  predicate Fits(pc: Pc, outcome: SendOutcome) {
    match pc
    case Posted(_, _, answer) => !outcome.NotPosted? && answer == AnswerOf(outcome)
    case Recorded(_, doc) =>
      (outcome.Tracked? || outcome.AuditLost?) && doc.status == Enviado && doc.trackId == AnswerOf(outcome)
    case _ => true
  }

  /** The database the pass will leave, told from where it stands. */
  function Rest(s: Sys, p: nat, env: PrepareEnv, outcome: SendOutcome): Db
    requires PassAt(s, p)
  {
    var r := s.passes[p].request;
    match s.passes[p].pc
    case Claimed => Processed(s.db, r, s.clock, env, outcome)
    case Loaded(_) => Processed(s.db, r, s.clock, env, outcome)
    case RetryPending(copy, code) => RetryScheduled(s.db, r, copy, code, s.clock)
    case Linked(_, copy) => TransmittedDb(s.db, r, copy, s.clock, outcome)
    case Inspecting(copy, _) => if copy.dteId.Some? then FinalizedDb(s.db, r, copy, s.clock, outcome) else s.db
    case Concluding(copy, target) => StateApplied(s.db, r, copy, target, s.clock)
    case Ready(copy) => TransmittedDb(s.db, r, copy, s.clock, outcome)
    case Marked(copy) => SentDb(s.db, r, copy, s.clock, outcome)
    case Sending(copy, _) => SentDb(s.db, r, copy, s.clock, outcome)
    case Posted(copy, _, _) => SentDb(s.db, r, copy, s.clock, outcome)
    case Recorded(copy, doc) =>
      if outcome.Tracked? then StateApplied(s.db, r, copy, Submitted, s.clock)
      else QuarantinedDb(if WrittenDown(outcome) && HasDoc(s, copy)
                         then DocWritten(s.db, copy.dteId.value, Drafted(doc, doc.trackId)) else s.db,
                         r, copy, s.clock)
    case Quarantining(copy) => QuarantinedDb(s.db, r, copy, s.clock)
    case Done => s.db
    case Crashed => s.db
  }

  /** Whether the pass will still post an envelope. */
  predicate WillPost(s: Sys, p: nat, env: PrepareEnv, outcome: SendOutcome)
    requires PassAt(s, p)
  {
    var r := s.passes[p].request;
    match s.passes[p].pc
    case Claimed => PostsEnvelope(s.db, r, env, outcome)
    case Loaded(_) => PostsEnvelope(s.db, r, env, outcome)
    case Inspecting(_, doc) =>
      !outcome.NotPosted? && s.db.rows[r].transmissionStartedAt.None? && !Resolved(MapDteStatus(doc.status))
        && doc.trackId.None?
    case Linked(_, _) => !outcome.NotPosted?
    case Ready(copy) => !outcome.NotPosted? && copy.transmissionStartedAt.None?
    case Marked(_) => !outcome.NotPosted?
    case Sending(_, _) => !outcome.NotPosted?
    case _ => false
  }

  // --------------------------------------------------------- one step of it

  /** The facts every step of an uninterrupted pass shares. */
  ghost predicate Along(s: Sys, p: nat, outcome: SendOutcome) {
    Inv(s, true) && Holds(s, p) && PassAt(s, p) && Fits(s.passes[p].pc, outcome) && s.passes[p].pc != Crashed
  }

  /** What one step must preserve: the outcome foretold, the clock, the claim. */
  ghost predicate Foretold(s: Sys, s': Sys, p: nat, env: PrepareEnv, outcome: SendOutcome)
    requires PassAt(s, p)
  {
    && PassAt(s', p) && s'.passes[p].request == s.passes[p].request && Fits(s'.passes[p].pc, outcome)
    && s'.passes[p].pc != Crashed
    && Rank(s'.passes[p].pc) < Rank(s.passes[p].pc)
    && s'.clock == s.clock && s'.books == s.books && |s'.db.rows| == |s.db.rows|
    && Rest(s', p, env, outcome) == Rest(s, p, env, outcome)
    && |s'.sends| + (if WillPost(s', p, env, outcome) then 1 else 0)
         == |s.sends| + (if WillPost(s, p, env, outcome) then 1 else 0)
  }

  /** A step that is enabled and preserves what `Foretold` lists. */
  ghost predicate Foretells(s: Sys, next: Option<Sys>, p: nat, env: PrepareEnv, outcome: SendOutcome)
    requires PassAt(s, p)
  {
    next.Some? && Foretold(s, next.value, p, env, outcome)
  }

  lemma LoadStep(s: Sys, p: nat, env: PrepareEnv, outcome: SendOutcome)
    requires Along(s, p, outcome) && s.passes[p].pc.Claimed?
    ensures Foretells(s, Loading(s, p), p, env, outcome)
  {
    hide Inv, Processed, PostsEnvelope, FinalizedDb, TransmittedDb, SentDb, QuarantinedDb;
    HolderProcessing(s, p, true);
  }

  lemma ReadBackStep(s: Sys, p: nat, env: PrepareEnv, outcome: SendOutcome)
    requires Along(s, p, outcome) && s.passes[p].pc.Linked?
    ensures Foretells(s, ReadingPrepared(s, p, true), p, env, outcome)
  {
    hide Inv, Processed, PostsEnvelope, FinalizedDb, TransmittedDb, SentDb, QuarantinedDb;
    HolderProcessing(s, p, true);
  }

  lemma OpenStep(s: Sys, p: nat, env: PrepareEnv, outcome: SendOutcome)
    requires Along(s, p, outcome) && s.passes[p].pc.Marked?
    ensures Foretells(s, Opening(s, p), p, env, outcome)
  {
    hide Inv, Processed, PostsEnvelope, FinalizedDb, TransmittedDb, SentDb, QuarantinedDb;
    HolderProcessing(s, p, true);
  }

  lemma QuarantineStep(s: Sys, p: nat, env: PrepareEnv, outcome: SendOutcome)
    requires Along(s, p, outcome) && s.passes[p].pc.Quarantining?
    ensures Foretells(s, Quarantined(s, p), p, env, outcome)
  {
    hide Inv, Processed, PostsEnvelope, FinalizedDb, TransmittedDb, SentDb;
    HolderProcessing(s, p, true);
  }

  lemma InspectStep(s: Sys, p: nat, env: PrepareEnv, outcome: SendOutcome)
    requires Along(s, p, outcome) && s.passes[p].pc.Loaded? && s.passes[p].pc.copy.dteId.Some?
    ensures Foretells(s, Inspected(s, p), p, env, outcome)
  {
    hide Inv, FinalizedDb, TransmittedDb, SentDb, QuarantinedDb;
    HolderProcessing(s, p, true);
  }

  lemma PrepareFailsStep(s: Sys, p: nat, env: PrepareEnv, outcome: SendOutcome)
    requires Along(s, p, outcome) && s.passes[p].pc.Loaded? && s.passes[p].pc.copy.dteId.None?
    requires PreparedAndLinked(s.db, s.passes[p].request, env).Err?
    ensures Foretells(s, Preparing(s, p, env), p, env, outcome)
  {
    hide Inv, PreparedAndLinked, RetryScheduled, FinalizedDb, TransmittedDb, SentDb, QuarantinedDb, StateApplied;
    HolderProcessing(s, p, true);
  }

  /** What a successful prepare leaves alone, and that the request it links was unfenced. */
  lemma PrepareLinks(s: Sys, p: nat, env: PrepareEnv)
    requires Inv(s, true) && Holds(s, p) && PassAt(s, p) && s.passes[p].pc.Loaded? && s.passes[p].pc.copy.dteId.None?
    requires PreparedAndLinked(s.db, s.passes[p].request, env).Ok?
    ensures s.passes[p].pc.copy == s.db.rows[s.passes[p].request]
    ensures s.db.rows[s.passes[p].request].transmissionStartedAt.None?
    ensures |PreparedAndLinked(s.db, s.passes[p].request, env).value.rows| == |s.db.rows|
  {
    HolderProcessing(s, p, true);
    var _ := PreparedAdds(s.db, s.db.rows[s.passes[p].request], env);
  }

  /** The system right after a successful prepare. */
  lemma LinkedSystem(s: Sys, p: nat, env: PrepareEnv)
    requires Inv(s, true) && Holds(s, p) && PassAt(s, p) && s.passes[p].pc.Loaded? && s.passes[p].pc.copy.dteId.None?
    requires PreparedAndLinked(s.db, s.passes[p].request, env).Ok?
    ensures Preparing(s, p, env).Some?
    ensures var s' := Preparing(s, p, env).value; var r := s.passes[p].request;
            var db' := PreparedAndLinked(s.db, r, env).value;
            && r < |db'.rows| == |s.db.rows| && s'.db == db' && s'.clock == s.clock && s'.books == s.books
            && s'.sends == s.sends
            && |s'.passes| == |s.passes| && s'.passes[p] == Pass(r, Linked(s.passes[p].pc.copy, db'.rows[r]))
  {
    PrepareLinks(s, p, env);
    hide Inv, PreparedAndLinked, StateApplied;
  }

  lemma PrepareLinksStep(s: Sys, p: nat, env: PrepareEnv, outcome: SendOutcome)
    requires Along(s, p, outcome) && s.passes[p].pc.Loaded? && s.passes[p].pc.copy.dteId.None?
    requires PreparedAndLinked(s.db, s.passes[p].request, env).Ok?
    ensures Foretells(s, Preparing(s, p, env), p, env, outcome)
  {
    hide Inv, PreparedAndLinked, Preparing, FinalizedDb, TransmittedDb, SentDb, RetryScheduled, QuarantinedDb,
         StateApplied, ClaimedBy;
    PrepareLinks(s, p, env);
    LinkedSystem(s, p, env);
  }

  lemma RetryStep(s: Sys, p: nat, env: PrepareEnv, outcome: SendOutcome)
    requires Along(s, p, outcome) && s.passes[p].pc.RetryPending?
    ensures Foretells(s, Retrying(s, p), p, env, outcome)
  {
    hide Inv, Processed, PostsEnvelope, FinalizedDb, TransmittedDb, SentDb, QuarantinedDb;
    HolderProcessing(s, p, true);
  }

  lemma DecideStep(s: Sys, p: nat, env: PrepareEnv, outcome: SendOutcome)
    requires Along(s, p, outcome) && s.passes[p].pc.Inspecting?
    ensures Foretells(s, Deciding(s, p), p, env, outcome)
  {
    hide Inv, Processed, PostsEnvelope, TransmittedDb, SentDb, QuarantinedDb, Outbox.Emitted, HistoryOk;
    HolderProcessing(s, p, true);
  }

  lemma FenceStep(s: Sys, p: nat, env: PrepareEnv, outcome: SendOutcome)
    requires Along(s, p, outcome) && s.passes[p].pc.Ready?
    ensures Foretells(s, Fencing(s, p), p, env, outcome)
  {
    hide Inv, Processed, PostsEnvelope, FinalizedDb, SentDb, QuarantinedDb;
    HolderProcessing(s, p, true);
  }

  lemma AbortStep(s: Sys, p: nat, env: PrepareEnv, outcome: SendOutcome)
    requires Along(s, p, outcome) && s.passes[p].pc.Sending? && outcome.NotPosted?
    ensures Foretells(s, SendAborted(s, p), p, env, outcome)
  {
    hide Inv, Processed, PostsEnvelope, FinalizedDb, TransmittedDb, StateApplied, QuarantinedDb;
    HolderProcessing(s, p, true);
    var d := s.db.rows[s.passes[p].request].dteId.value;
    assert s.db.docs[d := s.db.docs[d]] == s.db.docs;
  }

  lemma PostStep(s: Sys, p: nat, env: PrepareEnv, outcome: SendOutcome)
    requires Along(s, p, outcome) && s.passes[p].pc.Sending? && !outcome.NotPosted?
    ensures Foretells(s, Posting(s, p, AnswerOf(outcome)), p, env, outcome)
  {
    hide Inv, Processed, PostsEnvelope, FinalizedDb, TransmittedDb, SentDb;
    HolderProcessing(s, p, true);
  }

  lemma Overwrite(db: Db, d: nat, x: Doc, y: Doc)
    requires d < |db.docs|
    ensures DocWritten(DocWritten(db, d, x), d, y) == DocWritten(db, d, y)
    ensures DocWritten(db, d, db.docs[d]) == db
  {
    assert db.docs[d := x][d := y] == db.docs[d := y];
    assert db.docs[d := db.docs[d]] == db.docs;
  }

  lemma TrackStep(s: Sys, p: nat, env: PrepareEnv, outcome: SendOutcome)
    requires Along(s, p, outcome) && s.passes[p].pc.Posted? && outcome.Tracked?
    ensures Foretells(s, TrackRecorded(s, p), p, env, outcome)
  {
    hide Inv, Processed, PostsEnvelope, FinalizedDb, TransmittedDb, StateApplied, QuarantinedDb;
    HolderProcessing(s, p, true);
  }

  lemma AuditedTrackStep(s: Sys, p: nat, env: PrepareEnv, outcome: SendOutcome)
    requires Along(s, p, outcome) && s.passes[p].pc.Posted? && outcome.AuditLost?
    ensures Foretells(s, TrackRecorded(s, p), p, env, outcome)
  {
    hide Inv, Processed, PostsEnvelope, FinalizedDb, TransmittedDb, StateApplied, QuarantinedDb;
    HolderProcessing(s, p, true);
    var doc, t := s.passes[p].pc.doc, outcome.track;
    Overwrite(s.db, s.db.rows[s.passes[p].request].dteId.value, Sent(doc, t), Drafted(doc, Some(t)));
    assert Drafted(Sent(doc, t), Some(t)) == Drafted(doc, Some(t));
  }

  lemma SilentStep(s: Sys, p: nat, env: PrepareEnv, outcome: SendOutcome)
    requires Along(s, p, outcome) && s.passes[p].pc.Posted? && outcome.NoAnswer?
    ensures Foretells(s, RecordFailed(s, p, WrittenDown(outcome)), p, env, outcome)
  {
    hide Inv, Processed, PostsEnvelope, FinalizedDb, TransmittedDb, StateApplied, QuarantinedDb;
    HolderProcessing(s, p, true);
    var doc := s.passes[p].pc.doc;
    Overwrite(s.db, s.db.rows[s.passes[p].request].dteId.value, doc, doc);
  }

  lemma LostTrackStep(s: Sys, p: nat, env: PrepareEnv, outcome: SendOutcome)
    requires Along(s, p, outcome) && s.passes[p].pc.Posted? && outcome.TrackLost?
    ensures Foretells(s, RecordFailed(s, p, WrittenDown(outcome)), p, env, outcome)
  {
    hide Inv, Processed, PostsEnvelope, FinalizedDb, TransmittedDb, StateApplied, QuarantinedDb;
    HolderProcessing(s, p, true);
    var doc := s.passes[p].pc.doc;
    Overwrite(s.db, s.db.rows[s.passes[p].request].dteId.value, doc, doc);
  }

  lemma CloseStep(s: Sys, p: nat, env: PrepareEnv, outcome: SendOutcome)
    requires Along(s, p, outcome) && s.passes[p].pc.Recorded? && outcome.Tracked?
    ensures Foretells(s, Submitting(s, p), p, env, outcome)
  {
    hide Inv, Processed, PostsEnvelope, FinalizedDb, TransmittedDb, SentDb;
    HolderProcessing(s, p, true);
  }

  lemma AuditStep(s: Sys, p: nat, env: PrepareEnv, outcome: SendOutcome)
    requires Along(s, p, outcome) && s.passes[p].pc.Recorded? && outcome.AuditLost?
    ensures Foretells(s, RecordFailed(s, p, WrittenDown(outcome)), p, env, outcome)
  {
    hide Inv, Processed, PostsEnvelope, FinalizedDb, TransmittedDb, SentDb, StateApplied, QuarantinedDb;
    HolderProcessing(s, p, true);
  }

  /** A pass never stands at its second closing state while its request is in processing. */
  lemma NeverConcluding(s: Sys, p: nat)
    requires Inv(s, true) && Holds(s, p) && PassAt(s, p)
    ensures !s.passes[p].pc.Concluding?
  {
    if s.passes[p].pc.Concluding? { HolderProcessing(s, p, true); }
  }

  lemma AboutToSendFollowed(s: Sys, p: nat, env: PrepareEnv, outcome: SendOutcome)
    requires Along(s, p, outcome) && s.passes[p].pc.Sending?
    ensures Foretells(s, Next(s, NextStep(s.passes[p].pc, p, env, outcome)), p, env, outcome)
  {
    hide Foretells, Inv, SendAborted, Posting;
    if outcome.NotPosted? { AbortStep(s, p, env, outcome); } else { PostStep(s, p, env, outcome); }
  }

  lemma RecordedFollowed(s: Sys, p: nat, env: PrepareEnv, outcome: SendOutcome)
    requires Along(s, p, outcome) && s.passes[p].pc.Recorded?
    ensures Foretells(s, Next(s, NextStep(s.passes[p].pc, p, env, outcome)), p, env, outcome)
  {
    hide Foretells, Inv, Submitting, RecordFailed;
    if outcome.Tracked? { CloseStep(s, p, env, outcome); } else { AuditStep(s, p, env, outcome); }
  }

  lemma PostedFollowed(s: Sys, p: nat, env: PrepareEnv, outcome: SendOutcome)
    requires Along(s, p, outcome) && s.passes[p].pc.Posted?
    ensures Foretells(s, Next(s, NextStep(s.passes[p].pc, p, env, outcome)), p, env, outcome)
  {
    hide Foretells, Inv, TrackRecorded, RecordFailed;
    if outcome.Tracked? { TrackStep(s, p, env, outcome); }
    else if outcome.AuditLost? { AuditedTrackStep(s, p, env, outcome); }
    else if outcome.TrackLost? { LostTrackStep(s, p, env, outcome); }
    else { SilentStep(s, p, env, outcome); }
  }

  lemma SendingFollowed(s: Sys, p: nat, env: PrepareEnv, outcome: SendOutcome)
    requires Along(s, p, outcome) && !s.passes[p].pc.Done? && Rank(s.passes[p].pc) <= 6
    ensures Foretells(s, Next(s, NextStep(s.passes[p].pc, p, env, outcome)), p, env, outcome)
  {
    hide Foretells, Inv, Loading, Inspected, Preparing, Retrying, ReadingPrepared, Deciding, Concluded, Fencing,
         Opening, SendAborted, Posting, TrackRecorded, RecordFailed, Submitting, Quarantined;
    match s.passes[p].pc
    case RetryPending(_, _) => RetryStep(s, p, env, outcome);
    case Concluding(_, _) => NeverConcluding(s, p);
    case Ready(_) => FenceStep(s, p, env, outcome);
    case Marked(_) => OpenStep(s, p, env, outcome);
    case Sending(_, _) => AboutToSendFollowed(s, p, env, outcome);
    case Posted(_, _, _) => PostedFollowed(s, p, env, outcome);
    case Recorded(_, _) => RecordedFollowed(s, p, env, outcome);
    case Quarantining(_) => QuarantineStep(s, p, env, outcome);
  }

  lemma ScriptFollowed(s: Sys, p: nat, env: PrepareEnv, outcome: SendOutcome)
    requires Along(s, p, outcome) && !s.passes[p].pc.Done?
    ensures Foretells(s, Next(s, NextStep(s.passes[p].pc, p, env, outcome)), p, env, outcome)
  {
    hide Foretells, Inv, Loading, Inspected, Preparing, Retrying, ReadingPrepared, Deciding, Concluded, Fencing,
         Opening, SendAborted, Posting, TrackRecorded, RecordFailed, Submitting, Quarantined;
    match s.passes[p].pc
    case Claimed => LoadStep(s, p, env, outcome);
    case Loaded(copy) => 
      if copy.dteId.Some? { InspectStep(s, p, env, outcome); }
      else if PreparedAndLinked(s.db, s.passes[p].request, env).Ok? { PrepareLinksStep(s, p, env, outcome); }
      else { PrepareFailsStep(s, p, env, outcome); }
    case Linked(_, _) => ReadBackStep(s, p, env, outcome);
    case Inspecting(_, _) => DecideStep(s, p, env, outcome);
    case _ => SendingFollowed(s, p, env, outcome);
  }

  /** Every step of an uninterrupted pass is enabled, keeps the outcome foretold and
      brings the pass closer to its end. */
  lemma ScriptStep(s: Sys, p: nat, env: PrepareEnv, outcome: SendOutcome)
    requires Along(s, p, outcome) && !s.passes[p].pc.Done?
    ensures var a := NextStep(s.passes[p].pc, p, env, outcome);
            PassOf(a) == Some(p) && Disciplined(s, a) && Next(s, a).Some?
            && Along(Next(s, a).value, p, outcome) && Foretold(s, Next(s, a).value, p, env, outcome)
  {
    hide Rest, WillPost, Inv, Loading, Inspected, Preparing, Retrying, ReadingPrepared, Deciding, Concluded, Fencing,
         Opening, SendAborted, Posting, TrackRecorded, RecordFailed, Submitting, Quarantined;
    ScriptFollowed(s, p, env, outcome);
    StepKeeps(s, NextStep(s.passes[p].pc, p, env, outcome), true);
  }

  // ------------------------------------------------------- the whole pass

  lemma {:induction false} RunExtends(actions: seq<Action>, a: Action)
    requires DisciplinedRun(actions) && Run(actions).Some?
    requires Disciplined(Run(actions).value, a) && Next(Run(actions).value, a).Some?
    ensures DisciplinedRun(actions + [a]) && Run(actions + [a]) == Next(Run(actions).value, a)
  {
    assert (actions + [a])[..|actions|] == actions;
  }

  /** From anywhere in a pass to its end: the foretold database and sends come true. */
  ghost predicate ComesTrue(s: Sys, s': Sys, p: nat, env: PrepareEnv, outcome: SendOutcome)
    requires PassAt(s, p)
  {
    && p < |s'.passes| && s'.passes[p].pc == Done && s'.clock == s.clock
    && s'.db == Rest(s, p, env, outcome)
    && |s'.sends| == |s.sends| + (if WillPost(s, p, env, outcome) then 1 else 0)
  }

  lemma ComesTrueBefore(s: Sys, s1: Sys, s': Sys, p: nat, env: PrepareEnv, outcome: SendOutcome)
    requires PassAt(s, p) && Foretold(s, s1, p, env, outcome) && ComesTrue(s1, s', p, env, outcome)
    ensures ComesTrue(s, s', p, env, outcome)
  {}

  lemma {:induction false} Advance(actions: seq<Action>, p: nat, env: PrepareEnv, outcome: SendOutcome)
    returns (a: Action)
    requires DisciplinedRun(actions) && Run(actions).Some? && Along(Run(actions).value, p, outcome)
    requires !Run(actions).value.passes[p].pc.Done?
    ensures PassOf(a) == Some(p) && DisciplinedRun(actions + [a]) && Run(actions + [a]).Some?
    ensures Along(Run(actions + [a]).value, p, outcome)
    ensures Foretold(Run(actions).value, Run(actions + [a]).value, p, env, outcome)
  {
    var s := Run(actions).value;
    ScriptStep(s, p, env, outcome);
    a := NextStep(s.passes[p].pc, p, env, outcome);
    RunExtends(actions, a);
  }

  lemma {:induction false} Joined(actions: seq<Action>, lead: seq<Action>, rest: seq<Action>)
    ensures (actions + lead) + rest == actions + (lead + rest)
  {}

  lemma {:induction false} CompletePass(actions: seq<Action>, p: nat, env: PrepareEnv, outcome: SendOutcome)
    returns (script: seq<Action>)
    requires DisciplinedRun(actions) && Run(actions).Some? && Along(Run(actions).value, p, outcome)
    ensures |script| <= Rank(Run(actions).value.passes[p].pc)
    ensures forall i :: 0 <= i < |script| ==> PassOf(script[i]) == Some(p)
    ensures DisciplinedRun(actions + script) && Run(actions + script).Some?
    ensures ComesTrue(Run(actions).value, Run(actions + script).value, p, env, outcome)
    decreases Rank(Run(actions).value.passes[p].pc)
  {
    hide Next, Inv;
    if Run(actions).value.passes[p].pc.Done? {
      script := [];
      assert actions + script == actions;
    } else {
      var a := Advance(actions, p, env, outcome);
      var rest := CompletePass(actions + [a], p, env, outcome);
      script := [a] + rest;
      Joined(actions, [a], rest);
      ComesTrueBefore(Run(actions).value, Run(actions + [a]).value, Run(actions + script).value, p, env, outcome);
    }
  }

  /** Pass `p` went from its claim to its end in one go. */
  ghost predicate WentThrough(s: Sys, s': Sys, p: nat, env: PrepareEnv, outcome: SendOutcome)
    requires PassAt(s, p)
  {
    && p < |s'.passes| && s'.passes[p].pc == Done && s'.clock == s.clock
    && s'.db == Processed(s.db, s.passes[p].request, s.clock, env, outcome)
    && |s'.sends| == |s.sends| + (if PostsEnvelope(s.db, s.passes[p].request, env, outcome) then 1 else 0)
  }

  /** The protocol refines the processor: an uninterrupted pass ends, after at most
      nine steps of its own, with the database that `Process` leaves and with one
      envelope more exactly when `PostsEnvelope` says so. */
  lemma {:induction false} UninterruptedPass(actions: seq<Action>, p: nat, env: PrepareEnv, outcome: SendOutcome)
    returns (script: seq<Action>)
    requires DisciplinedRun(actions) && Run(actions).Some?
    requires var s := Run(actions).value; PassAt(s, p) && Holds(s, p) && s.passes[p].pc == Claimed
    ensures |script| <= 9 && forall i :: 0 <= i < |script| ==> PassOf(script[i]) == Some(p)
    ensures DisciplinedRun(actions + script) && Run(actions + script).Some?
    ensures WentThrough(Run(actions).value, Run(actions + script).value, p, env, outcome)
  {
    RunKeeps(actions, true);
    script := CompletePass(actions, p, env, outcome);
  }

  // --------------------------------------------------------------- recovery

  /** Where one uninterrupted pass leaves a request, told from its row and document. */
  function SettledState(db: Db, r: nat, env: PrepareEnv, outcome: SendOutcome): PublicState
    requires r < |db.rows|
  {
    var row := db.rows[r];
    if row.dteId.Some? && row.dteId.value < |db.docs| && db.docs[row.dteId.value].trackId.Some? then Submitted
    else if row.transmissionStartedAt.Some? then PublicState.Failed
    else if row.dteId.None? && PreparedAndLinked(db, r, env).Err? then
      if row.attempts + 1 == MAX_ATTEMPTS then PublicState.Failed else Processing
    else if outcome.Tracked? then Submitted
    else PublicState.Failed
  }

  /** A request still in processing after the pass waits for a retry and consumed nothing. */
  predicate RetryWithoutTrace(db: Db, db': Db, r: nat, now: int)
    requires r < |db.rows| && r < |db'.rows|
  {
    && db'.rows[r].state == Processing && db'.rows[r].attempts == db.rows[r].attempts + 1 < MAX_ATTEMPTS
    && db'.rows[r].nextAttemptAt == now + Backoff(db'.rows[r].attempts)
    && db'.rows[r].dteId.None? && db'.docs == db.docs && db'.config == db.config && db'.outbox == db.outbox
  }

  lemma TransmittedSettles(db: Db, r: nat, now: int, outcome: SendOutcome)
    requires r < |db.rows| && db.rows[r].state == Processing && db.rows[r].dteId.Some?
             && db.rows[r].dteId.value < |db.docs|
    ensures var db' := TransmittedDb(db, r, db.rows[r], now, outcome);
            && |db'.rows| == |db.rows|
            && db'.rows[r].state == if db.rows[r].transmissionStartedAt.None? && outcome.Tracked? then Submitted
                                    else PublicState.Failed
  {}

  lemma LinkedSettles(s: Sys, p: nat, env: PrepareEnv, outcome: SendOutcome)
    requires Inv(s, true) && PassAt(s, p) && Holds(s, p) && s.passes[p].pc == Claimed
    requires s.db.rows[s.passes[p].request].dteId.Some?
    ensures var r := s.passes[p].request; var db' := Processed(s.db, r, s.clock, env, outcome);
            && |db'.rows| == |s.db.rows|
            && db'.rows[r].state == SettledState(s.db, r, env, outcome) != Processing
  {
    HolderProcessing(s, p, true);
    TransmittedSettles(s.db, s.passes[p].request, s.clock, outcome);
    hide Inv, PcOk, TransmittedDb;
  }

  lemma UnlinkedSettles(s: Sys, p: nat, env: PrepareEnv, outcome: SendOutcome)
    requires Inv(s, true) && PassAt(s, p) && Holds(s, p) && s.passes[p].pc == Claimed
    requires s.db.rows[s.passes[p].request].dteId.None?
    ensures var r := s.passes[p].request; var db' := Processed(s.db, r, s.clock, env, outcome);
            && |db'.rows| == |s.db.rows|
            && db'.rows[r].state == SettledState(s.db, r, env, outcome)
            && (db'.rows[r].state == Processing ==> RetryWithoutTrace(s.db, db', r, s.clock))
  {
    hide Inv;
    HolderProcessing(s, p, true);
    var r := s.passes[p].request;
    if Prepared(s.db, s.db.rows[r], env).Ok? {
      var _ := PreparedAdds(s.db, s.db.rows[r], env);
      hide Prepared, SignedTotals;
      TransmittedSettles(PreparedAndLinked(s.db, r, env).value, r, s.clock, outcome);
    }
    hide RequestOk, PcOk, TransmittedDb, Prepared;
  }

  lemma ProcessedSettles(s: Sys, p: nat, env: PrepareEnv, outcome: SendOutcome)
    requires Inv(s, true) && PassAt(s, p) && Holds(s, p) && s.passes[p].pc == Claimed
    ensures var r := s.passes[p].request; var db' := Processed(s.db, r, s.clock, env, outcome);
            && |db'.rows| == |s.db.rows|
            && db'.rows[r].state == SettledState(s.db, r, env, outcome)
            && (db'.rows[r].state == Processing ==> RetryWithoutTrace(s.db, db', r, s.clock))
  {
    hide Processed, SettledState, Inv;
    if s.db.rows[s.passes[p].request].dteId.Some? { LinkedSettles(s, p, env, outcome); }
    else { UnlinkedSettles(s, p, env, outcome); }
  }

  /** `c` is `s` after the lease of `r` ran out and a new pass claimed it. */
  ghost predicate Reclaimed(s: Sys, c: Sys, r: nat)
    requires r < |s.db.rows|
  {
    var p := |s.passes|;
    && PassAt(c, p) && c.passes[p] == Pass(r, Claimed) && Holds(c, p) && c.sends == s.sends
    && c.db == s.db.(rows := s.db.rows[r := ClaimedRow(s.db.rows[r], c.clock)])
  }

  lemma WaitAndClaim(s: Sys, r: nat, elapsed: nat)
    requires Inv(s, true) && r < |s.db.rows| && s.db.rows[r].state in {Queued, Processing}
    requires s.db.rows[r].nextAttemptAt <= s.clock + elapsed
    ensures var s1 := s.(clock := s.clock + elapsed); ClaimedBy(s1, r).Some? && Reclaimed(s, ClaimedBy(s1, r).value, r)
  {}

  lemma {:induction false} Reclaim(actions: seq<Action>, r: nat) returns (lead: seq<Action>)
    requires DisciplinedRun(actions) && Run(actions).Some? && r < |Run(actions).value.db.rows|
    requires Run(actions).value.db.rows[r].state in {Queued, Processing}
    ensures |lead| == 2 && lead[0].Tick? && lead[1] == Claim(r)
    ensures DisciplinedRun(actions + lead) && Run(actions + lead).Some?
    ensures Reclaimed(Run(actions).value, Run(actions + lead).value, r)
  {
    hide Run, DisciplinedRun, Inv, Reclaimed, ClaimedBy;
    RunKeeps(actions, true);
    var s := Run(actions).value;
    var elapsed := if s.clock < s.db.rows[r].nextAttemptAt then s.db.rows[r].nextAttemptAt - s.clock else 0;
    WaitAndClaim(s, r, elapsed);
    RunExtends(actions, Tick(elapsed));
    RunExtends(actions + [Tick(elapsed)], Claim(r));
    Joined(actions, [Tick(elapsed)], [Claim(r)]);
    lead := [Tick(elapsed)] + [Claim(r)];
  }

  /** The claim itself does not change what a pass will do. */
  lemma ClaimedSettles(db: Db, r: nat, now: int, env: PrepareEnv, outcome: SendOutcome)
    requires r < |db.rows|
    ensures SettledState(db.(rows := db.rows[r := ClaimedRow(db.rows[r], now)]), r, env, outcome)
            == SettledState(db, r, env, outcome)
  {
    var db1 := db.(rows := db.rows[r := ClaimedRow(db.rows[r], now)]);
    assert Prepared(db1, db1.rows[r], env).Ok? == Prepared(db, db.rows[r], env).Ok?;
  }

  /** A fenced request's pass posts nothing. */
  lemma FencedPass(s: Sys, r: nat, env: PrepareEnv, outcome: SendOutcome)
    requires Inv(s, true) && r < |s.db.rows| && s.db.rows[r].transmissionStartedAt.Some?
    ensures HasDoc(s, s.db.rows[r]) && !PostsEnvelope(s.db, r, env, outcome)
    ensures SettledState(s.db, r, env, outcome) == if s.db.docs[s.db.rows[r].dteId.value].trackId.Some? then Submitted
                                                   else PublicState.Failed
  {
    assert RequestOk(ViewOf(s, r), true);
  }

  /** From every reachable state, wherever the earlier pass was cut short: once the
      lease ran out, one uninterrupted pass ends in submitted or failed, or in a
      scheduled retry that consumed nothing. If the fence was set, it posts nothing
      and ends in submitted exactly when the document carries a TrackID. */
  lemma {:induction false} Recovery(actions: seq<Action>, r: nat, env: PrepareEnv, outcome: SendOutcome)
    returns (more: seq<Action>)
    requires DisciplinedRun(actions) && Run(actions).Some? && r < |Run(actions).value.db.rows|
    requires Run(actions).value.db.rows[r].state in {Queued, Processing}
    ensures DisciplinedRun(actions + more) && Run(actions + more).Some?
    ensures 2 <= |more| <= 11 && more[0].Tick? && more[1] == Claim(r)
            && forall i :: 2 <= i < |more| ==> PassOf(more[i]) == Some(|Run(actions).value.passes|)
    ensures Recovered(Run(actions).value, Run(actions + more).value, r, env, outcome)
  {
    var lead := Reclaim(actions, r);
    var script := UninterruptedPass(actions + lead, |Run(actions).value.passes|, env, outcome);
    more := lead + script;
    Joined(actions, lead, script);
    RunKeeps(actions, true);
    RunKeeps(actions + lead, true);
    RecoveredBy(Run(actions).value, Run(actions + lead).value, Run(actions + more).value, r, env, outcome);
  }

  ghost predicate Recovered(s: Sys, s': Sys, r: nat, env: PrepareEnv, outcome: SendOutcome)
    requires r < |s.db.rows|
  {
    && r < |s'.db.rows|
    && s'.db.rows[r].state == SettledState(s.db, r, env, outcome)
    && s'.db.rows[r].state in {Submitted, PublicState.Failed, Processing}
    && (s'.db.rows[r].state == Processing ==> RetryWithoutTrace(s.db, s'.db, r, s'.clock))
    && |s.sends| <= |s'.sends| <= |s.sends| + 1
    && (s.db.rows[r].transmissionStartedAt.Some? ==>
          && |s'.sends| == |s.sends| && HasDoc(s, s.db.rows[r])
          && s'.db.rows[r].state == if s.db.docs[s.db.rows[r].dteId.value].trackId.Some? then Submitted
                                    else PublicState.Failed)
  }

  lemma RecoveredBy(s: Sys, c: Sys, s': Sys, r: nat, env: PrepareEnv, outcome: SendOutcome)
    requires Inv(s, true) && Inv(c, true) && r < |s.db.rows|
    requires Reclaimed(s, c, r)
    requires WentThrough(c, s', |s.passes|, env, outcome)
    ensures Recovered(s, s', r, env, outcome)
  {
    ProcessedSettles(c, |s.passes|, env, outcome);
    ClaimedSettles(s.db, r, c.clock, env, outcome);
    if s.db.rows[r].transmissionStartedAt.Some? {
      FencedPass(s, r, env, outcome);
      FencedPass(c, r, env, outcome);
    }
  }
}
