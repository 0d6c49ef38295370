/** Runs that show the hypotheses of the protocol's guarantees are needed. */
module Witnesses {
  import opened Wrappers
  import opened RequestStates
  import opened DocumentTotals
  import opened EmissionDb
  import opened Protocol
  import opened Recovery
  import DiscountEngine
  import FolioLedger
  import Sequences
  import Outbox

  const FINE := PrepareEnv(true, true, true, true, true)
  const NO_PROFILE := PrepareEnv(false, true, true, true, true)

  /** One exempt line of one peso: accepted as it stands. */
  const PEANUTS: Payload :=
    Payload(34, [PayloadItem("peanuts", 1.0, 1.0, true, None, None)], Some(Receiver("76000000-0", "Buyer")), [], None,
            None, None, [], None)

  lemma PeanutsAccepted()
    ensures Accept(PEANUTS, false) == Ok(DiscountEngine.Totals(0, 1, 0, 1, None, None))
  {
    var items := EngineItems(PEANUTS.items);
    assert items[..|items| - 1] == [];
    assert DiscountEngine.Shares(34, None, items) == Ok((0, 1));
    assert FirstItemError(PEANUTS.items[1..]).None?;
  }

  function Promised(): DiscountEngine.Totals { DiscountEngine.Totals(0, 1, 0, 1, None, None) }

  function Cafs(used: int): FolioLedger.Config { FolioLedger.Config([FolioLedger.Caf(34, 1, 2, Some(used), 0)]) }

  const FIRST_CAF := FolioLedger.ParsedCaf(34, 1, 2, 0)

  lemma ReserveWorks(used: int)
    requires used == 0 || used == 1
    ensures FolioLedger.Reserved(Cafs(used), 34) == Ok((Cafs(used + 1), used + 1))
    ensures FolioLedger.CafFor(Cafs(used + 1).cafs, 34, used + 1) == 0
    ensures FolioLedger.FolioAllowed(Cafs(used + 1).cafs[0], 34, used + 1)
  {
    var cafs := Cafs(used).cafs;
    assert FolioLedger.Available(cafs[0], 34) && FolioLedger.HasType(cafs, 34);
    assert FolioLedger.FirstAvailable(cafs, 34) == 0;
    assert FolioLedger.Advanced(cafs, 0) == Cafs(used + 1).cafs;
  }

  lemma PeanutsSigned()
    ensures SignedTotals(PEANUTS, 1) == Ok(Promised())
  {
    hide Accept, SignedTotals;
    PeanutsAccepted();
    PromisedIsSigned(PEANUTS, false, 1);
    assert RetentionSum(PEANUTS.taxRetentions) == 0;
  }

  lemma UploadWorks(p: FolioLedger.ParsedCaf)
    ensures FolioLedger.Uploaded([], p)
         == Ok([FolioLedger.Caf(p.typ, p.rangeFrom, p.rangeTo, Some(p.rangeFrom - 1), p.material)])
  {
    var none: seq<FolioLedger.Caf> := [];
    assert Sequences.Filter((c: FolioLedger.Caf) => FolioLedger.Overlaps(c, p), none) == [];
    assert FolioLedger.Uploaded(none, p).value
        == [FolioLedger.Caf(p.typ, p.rangeFrom, p.rangeTo, Some(p.rangeFrom - 1), p.material)];
  }

  lemma PrepareWorks(db: Db, row: Row, used: int)
    requires row.payload == PEANUTS && row.serverTotals == Promised()
    requires db.config == Cafs(used) && (used == 0 || used == 1)
    ensures Prepared(db, row, FINE)
            == Ok((db.(config := Cafs(used + 1), docs := db.docs + [Doc(34, used + 1, 1, Firmado, None)]), |db.docs|))
  {
    hide SignedTotals, FolioLedger.Reserved, FolioLedger.CafFor, FolioLedger.FolioAllowed;
    PeanutsSigned();
    ReserveWorks(used);
  }

  // ------------------------------------------------------ building the runs

  /** A run all of whose steps but the one at position `breach` are disciplined. */
  predicate DisciplinedBut(actions: seq<Action>, breach: int) {
    actions == [] ||
    (var init, a := actions[..|actions| - 1], actions[|actions| - 1];
     && DisciplinedBut(init, breach)
     && Run(init).Some? && (|init| == breach || Disciplined(Run(init).value, a)) && Next(Run(init).value, a).Some?)
  }

  lemma {:induction false} Then(actions: seq<Action>, a: Action, breach: int) returns (longer: seq<Action>)
    requires DisciplinedBut(actions, breach) && Run(actions).Some?
    requires |actions| == breach || Disciplined(Run(actions).value, a)
    requires Next(Run(actions).value, a).Some?
    ensures longer == actions + [a] && actions <= longer
    ensures DisciplinedBut(longer, breach) && Run(longer) == Next(Run(actions).value, a)
  {
    longer := actions + [a];
    assert longer[..|longer| - 1] == actions;
  }

  lemma {:induction false} NoBreach(actions: seq<Action>, breach: int)
    requires DisciplinedBut(actions, breach) && (breach < 0 || breach >= |actions|)
    ensures DisciplinedRun(actions)
  {
    if actions != [] { NoBreach(actions[..|actions| - 1], breach); }
  }

  /** One request in the system. */
  predicate Solo(s: Sys) { |s.db.rows| == 1 && |s.books| == 1 }

  predicate PeanutsRow(row: Row) {
    row.payload == PEANUTS && row.serverTotals == Promised() && row.maxAttempts == MAX_ATTEMPTS
  }

  /** Every pass but `p` stands where it stood. */
  predicate OthersStay(s: Sys, s': Sys, p: nat) {
    |s.passes| <= |s'.passes| && forall i :: 0 <= i < |s.passes| && i != p ==> s'.passes[i] == s.passes[i]
  }

  lemma Begin(breach: int) returns (actions: seq<Action>)
    requires breach < 0 || breach > 2
    ensures |actions| == 2 && DisciplinedBut(actions, breach) && Run(actions).Some?
    ensures var s := Run(actions).value;
            && Solo(s) && s.db.rows[0] == NewRow(PEANUTS, Promised(), 0) && s.db.config == Cafs(0) && s.db.docs == []
            && s.passes == [] && s.sends == [] && s.clock == 0 && s.verdicts == [] && s.polls == [] && s.raises == []
  {
    hide Accept, FolioLedger.Uploaded, NewRow;
    PeanutsAccepted();
    UploadWorks(FIRST_CAF);
    actions := Then([], Enqueue(PEANUTS, false), breach);
    actions := Then(actions, UploadCaf(FIRST_CAF), breach);
  }

  function Wait(s: Sys): nat
    requires Solo(s)
  {
    if s.db.rows[0].nextAttemptAt > s.clock then s.db.rows[0].nextAttemptAt - s.clock else 0
  }

  predicate Taken(s: Sys, s': Sys) {
    var p := |s.passes|;
    && Solo(s) && Solo(s') && s'.db.rows[0] == ClaimedRow(s.db.rows[0], s'.clock) && Holds(s', p)
    && |s'.passes| == p + 1
    && s'.passes[p] == Pass(0, Loaded(s'.db.rows[0])) && OthersStay(s, s', p)
    && s'.db.docs == s.db.docs && s'.db.config == s.db.config && s'.sends == s.sends
    && s'.verdicts == s.verdicts && s'.polls == s.polls && s'.raises == s.raises
  }

  lemma TakeSteps(s: Sys) returns (claimed: Sys, loaded: Sys)
    requires Solo(s) && (s.db.rows[0].state == Queued || s.db.rows[0].state == Processing)
    ensures ClaimedBy(s.(clock := s.clock + Wait(s)), 0) == Some(claimed)
    ensures Loading(claimed, |s.passes|) == Some(loaded) && Holds(claimed, |s.passes|) && Taken(s, loaded)
  {
    claimed := ClaimedBy(s.(clock := s.clock + Wait(s)), 0).value;
    loaded := Loading(claimed, |s.passes|).value;
  }

  /** After the wait, a new pass claims the request and reads it. */
  lemma {:induction false} Take(actions: seq<Action>, breach: int) returns (longer: seq<Action>)
    requires DisciplinedBut(actions, breach) && Run(actions).Some? && (breach < |actions| || breach >= |actions| + 3)
    requires var s := Run(actions).value; Solo(s) && (s.db.rows[0].state == Queued || s.db.rows[0].state == Processing)
    ensures actions <= longer && DisciplinedBut(longer, breach) && Run(longer).Some? && |longer| == |actions| + 3
    ensures Taken(Run(actions).value, Run(longer).value)
  {
    hide Run, DisciplinedBut, DisciplinedRun, ClaimedBy, Loading, Taken, Holds, Wait;
    var s := Run(actions).value;
    var _, _ := TakeSteps(s);
    longer := Then(actions, Tick(Wait(s)), breach);
    longer := Then(longer, Claim(0), breach);
    longer := Then(longer, Load(|s.passes|), breach);
  }

  predicate Linkable(s: Sys, p: nat, used: int) {
    && Solo(s) && Holds(s, p) && s.passes[p].request == 0 && s.passes[p].pc == Loaded(s.db.rows[0])
    && PeanutsRow(s.db.rows[0]) && s.db.rows[0].dteId.None? && s.db.config == Cafs(used)
  }

  predicate LinkedBy(s: Sys, s': Sys, p: nat, used: int)
    requires Linkable(s, p, used)
  {
    && Solo(s') && s'.db.rows[0] == s.db.rows[0].(dteId := Some(|s.db.docs|)) && Holds(s', p)
    && s'.passes[p] == Pass(0, Linked(s.db.rows[0], s'.db.rows[0])) && OthersStay(s, s', p) && |s'.passes| == |s.passes|
    && s'.db.docs == s.db.docs + [Doc(34, used + 1, 1, Firmado, None)] && s'.db.config == Cafs(used + 1)
    && s'.sends == s.sends && s'.verdicts == s.verdicts + [SiiPending] && s'.polls == s.polls && s'.raises == s.raises
  }

  lemma LinkWorks(db: Db, used: int)
    requires (used == 0 || used == 1) && |db.rows| == 1
    requires PeanutsRow(db.rows[0]) && db.rows[0].dteId.None? && db.config == Cafs(used)
    ensures PreparedAndLinked(db, 0, FINE)
         == Ok(db.(config := Cafs(used + 1), docs := db.docs + [Doc(34, used + 1, 1, Firmado, None)],
                   rows := db.rows[0 := db.rows[0].(dteId := Some(|db.docs|))]))
  {
    hide Prepared;
    PrepareWorks(db, db.rows[0], used);
  }

  lemma LinkStep(s: Sys, p: nat, used: int) returns (s': Sys)
    requires (used == 0 || used == 1) && Linkable(s, p, used)
    ensures Preparing(s, p, FINE) == Some(s') && LinkedBy(s, s', p, used)
  {
    hide PreparedAndLinked, PeanutsRow;
    LinkWorks(s.db, used);
    s' := Preparing(s, p, FINE).value;
  }

  /** The pass prepares and links a new document. */
  lemma {:induction false} Link(actions: seq<Action>, p: nat, used: int, breach: int) returns (longer: seq<Action>)
    requires DisciplinedBut(actions, breach) && Run(actions).Some? && (breach < |actions| || breach >= |actions| + 1)
    requires used == 0 || used == 1
    requires Linkable(Run(actions).value, p, used)
    ensures actions <= longer && DisciplinedBut(longer, breach) && Run(longer).Some? && |longer| == |actions| + 1
    ensures LinkedBy(Run(actions).value, Run(longer).value, p, used)
  {
    hide Run, DisciplinedBut, DisciplinedRun, Preparing, LinkedBy;
    var _ := LinkStep(Run(actions).value, p, used);
    longer := Then(actions, Prepare(p, FINE), breach);
  }

  /** The pass sets the fence. */
  lemma {:induction false} SetFence(actions: seq<Action>, p: nat, breach: int) returns (longer: seq<Action>)
    requires DisciplinedBut(actions, breach) && Run(actions).Some? && (breach < |actions| || breach >= |actions| + 2)
    requires var s := Run(actions).value;
             && Solo(s) && Holds(s, p) && s.passes[p].request == 0 && s.passes[p].pc.Linked?
             && s.passes[p].pc.copy == s.db.rows[0]
             && s.db.rows[0].transmissionStartedAt.None?
    ensures actions <= longer && DisciplinedBut(longer, breach) && Run(longer).Some? && |longer| == |actions| + 2
    ensures var s, s' := Run(actions).value, Run(longer).value;
            var row := s.db.rows[0].(transmissionStartedAt := Some(s.clock));
            s' == s.(db := s.db.(rows := s.db.rows[0 := row]), passes := s.passes[p := Pass(0, Marked(row))])
  {
    hide Run, DisciplinedBut, DisciplinedRun;
    longer := Then(actions, ReadPrepared(p), breach);
    longer := Then(longer, Fence(p), breach);
  }

  /** The fenced pass opens the document and posts it. */
  lemma {:induction false} PostIt(actions: seq<Action>, p: nat, answer: Option<nat>, breach: int)
    returns (longer: seq<Action>)
    requires DisciplinedBut(actions, breach) && Run(actions).Some? && (breach < |actions| || breach >= |actions| + 2)
    requires var s := Run(actions).value;
             && Solo(s) && Holds(s, p) && s.passes[p] == Pass(0, Marked(s.db.rows[0])) && HasDoc(s, s.db.rows[0])
    ensures actions <= longer && DisciplinedBut(longer, breach) && Run(longer).Some? && |longer| == |actions| + 2
    ensures var s, s' := Run(actions).value, Run(longer).value; var row := s.db.rows[0];
            s' == s.(passes := s.passes[p := Pass(0, Posted(row, s.db.docs[row.dteId.value], answer))],
                     sends := s.sends + [Send(0, row.dteId.value)])
  {
    hide Run, DisciplinedBut, DisciplinedRun;
    longer := Then(actions, OpenDocument(p), breach);
    longer := Then(longer, Post(p, answer), breach);
  }

  /** An unlinked, unfenced request, and the CAF with `used` of its two folios gone. */
  predicate Unlinked(s: Sys, used: int) {
    && Solo(s) && PeanutsRow(s.db.rows[0]) && s.db.rows[0].dteId.None? && s.db.rows[0].transmissionStartedAt.None?
    && (s.db.rows[0].state == Queued || s.db.rows[0].state == Processing)
    && s.db.config == Cafs(used) && (used == 0 || used == 1) && |s.db.docs| == used && |s.verdicts| == used
  }

  /** What a pass that prepared and posted leaves. */
  ghost predicate PostedOnce(s: Sys, s': Sys, used: int, answer: Option<nat>)
    requires Solo(s)
  {
    var p := |s.passes|;
    && Solo(s') && PeanutsRow(s'.db.rows[0]) && s'.db.rows[0].dteId == Some(|s.db.docs|)
    && s'.db.rows[0].transmissionStartedAt.Some?
    && s'.db.rows[0].state == Processing && s'.db.rows[0].attempts == s.db.rows[0].attempts
    && Holds(s', p) && |s'.passes| == p + 1 && OthersStay(s, s', p)
    && s'.passes[p] == Pass(0, Posted(s'.db.rows[0], Doc(34, used + 1, 1, Firmado, None), answer))
    && s'.db.docs == s.db.docs + [Doc(34, used + 1, 1, Firmado, None)] && s'.db.config == Cafs(used + 1)
    && s'.sends == s.sends + [Send(0, |s.db.docs|)]
    && s'.verdicts == s.verdicts + [SiiPending] && s'.polls == s.polls && s'.raises == s.raises
  }

  lemma {:induction false} PassPosts(actions: seq<Action>, used: int, answer: Option<nat>, breach: int)
    returns (longer: seq<Action>)
    requires DisciplinedBut(actions, breach) && Run(actions).Some? && (breach < |actions| || breach >= |actions| + 8)
    requires Unlinked(Run(actions).value, used)
    ensures actions <= longer && DisciplinedBut(longer, breach) && Run(longer).Some? && |longer| == |actions| + 8
    ensures PostedOnce(Run(actions).value, Run(longer).value, used, answer)
  {
    hide Next, Run, DisciplinedBut, DisciplinedRun;
    var p := |Run(actions).value.passes|;
    longer := Take(actions, breach);
    longer := Link(longer, p, used, breach);
    longer := SetFence(longer, p, breach);
    longer := PostIt(longer, p, answer, breach);
  }

  // ----------------------------------------------- the lease must be respected

  /** A first pass fails to prepare and stops just before it writes its retry. */
  lemma AboutToRetry(breach: int) returns (actions: seq<Action>)
    requires breach > 6
    ensures |actions| == 6 && DisciplinedBut(actions, breach) && Run(actions).Some?
    ensures var s := Run(actions).value;
            && Unlinked(s, 0) && |s.passes| == 1 && s.passes[0].pc.RetryPending? && s.passes[0].request == 0
            && s.passes[0].pc.copy == s.db.rows[0] && s.db.rows[0].attempts == 0 && s.db.rows[0].state == Processing
            && s.sends == []
  {
    hide Run, DisciplinedBut, DisciplinedRun;
    actions := Begin(breach);
    actions := Take(actions, breach);
    actions := Then(actions, Prepare(0, NO_PROFILE), breach);
  }

  /** The stale retry writes the old copy over the fenced row. */
  lemma {:induction false} StaleRetry(actions: seq<Action>) returns (longer: seq<Action>)
    requires DisciplinedBut(actions, |actions|) && Run(actions).Some?
    requires var s := Run(actions).value;
             && Solo(s) && |s.passes| >= 1 && s.passes[0].pc.RetryPending? && s.passes[0].request == 0
             && (var copy := s.passes[0].pc.copy;
                 PeanutsRow(copy) && copy.dteId.None? && copy.transmissionStartedAt.None? && copy.state == Processing
                   && copy.attempts == 0)
             && s.db.config == Cafs(1) && |s.db.docs| == 1 && |s.verdicts| == 1
    ensures longer == actions + [Retry(0)] && DisciplinedBut(longer, |actions|) && Run(longer).Some?
    ensures var s, s' := Run(actions).value, Run(longer).value;
            Unlinked(s', 1) && s'.db.docs == s.db.docs && s'.sends == s.sends
  {
    hide Run, DisciplinedBut, DisciplinedRun;
    longer := Then(actions, Retry(0), |actions|);
  }

  /** A pass that fails to prepare loses its lease before it writes its retry; a
      newer pass posts the document; then the stale retry, the one undisciplined
      step of the run, writes its whole old copy back. The fence and the link are
      gone, and the request is posted a second time, with a second document. */
  lemma StaleRetrySendsTwice() returns (actions: seq<Action>, breach: nat)
    ensures DisciplinedBut(actions, breach) && Run(actions).Some?
    ensures breach < |actions| && actions[breach] == Retry(0)
    ensures Run(actions).value.sends == [Send(0, 0), Send(0, 1)]
    ensures var db := Run(actions).value.db;
            |db.rows| == 1 && |db.docs| == 2 && db.docs[0].folio == 1 && db.docs[1].folio == 2
  {
    hide Next;
    breach := 14;
    var first := AboutToRetry(breach);
    var posted := PassPosts(first, 0, None, breach);
    var reopened := StaleRetry(posted);
    actions := PassPosts(reopened, 1, None, breach);
  }

  // ------------------------------------- a lost read must count as a crash

  lemma ReadLost(breach: int) returns (actions: seq<Action>)
    requires breach == 6
    ensures |actions| == 7 && actions[6] == LoseRead(0) && DisciplinedBut(actions, breach) && Run(actions).Some?
    ensures var s := Run(actions).value;
            && Solo(s) && Holds(s, 0) && s.db.docs == [Doc(34, 1, 1, Firmado, None)] && s.db.config == Cafs(1)
            && s.passes[0].request == 0 && s.passes[0].pc.RetryPending? && PeanutsRow(s.passes[0].pc.copy)
            && s.passes[0].pc.copy.dteId.None? && s.passes[0].pc.copy.state == Processing
            && s.passes[0].pc.copy.attempts == 0
            && |s.passes| == 1
  {
    hide Run, DisciplinedBut, DisciplinedRun;
    actions := Begin(breach);
    actions := Take(actions, breach);
    actions := Link(actions, 0, 0, breach);
    actions := Then(actions, LoseRead(0), breach);
  }

  /** If a read that fails after the prepare commit led to a retry, the retry would
      write back the copy read before the link: document and folio stay behind
      without a request, and the next pass prepares a second document. */
  lemma LostReadOrphans() returns (actions: seq<Action>, breach: nat)
    ensures DisciplinedBut(actions, breach) && Run(actions).Some?
    ensures breach < |actions| && actions[breach] == LoseRead(0)
    ensures var db := Run(actions).value.db;
            && |db.rows| == 1 && |db.docs| == 2 && db.docs[0].folio == 1 && db.docs[1].folio == 2
            && db.rows[0].dteId == Some(1)
  {
    hide Run, DisciplinedBut, DisciplinedRun;
    breach := 6;
    var lost := ReadLost(breach);
    var retried := Then(lost, Retry(0), breach);
    var taken := Take(retried, breach);
    actions := Link(taken, 1, 1, breach);
  }

  // -------------------------------------------------- outdated objections

  /** A submitted document with a TrackID. */
  ghost predicate InTransit(s: Sys) {
    && Solo(s) && s.db.rows[0].state == Submitted && s.db.rows[0].dteId == Some(0) && s.verdicts == [SiiPending]
    && |s.db.docs| == 1 && s.db.docs[0].trackId.Some? && s.polls == [] && s.raises == []
  }

  lemma Submission() returns (actions: seq<Action>)
    ensures DisciplinedBut(actions, -1) && Run(actions).Some? && InTransit(Run(actions).value)
  {
    hide Run, DisciplinedBut, DisciplinedRun, TrackRecorded, Submitting;
    var posted := FirstPosted();
    var _, _ := SubmitSteps(Run(posted).value);
    var recorded := Then(posted, RecordTrack(0), -1);
    actions := Then(recorded, Submit(0), -1);
  }

  /** One posted document, answered with a TrackID that is not yet recorded. */
  ghost predicate AnswerReceived(s: Sys) {
    && Solo(s) && s.db.rows[0].dteId == Some(0) && s.db.rows[0].state == Processing && Holds(s, 0)
    && s.db.docs == [Doc(34, 1, 1, Firmado, None)]
    && s.passes[0] == Pass(0, Posted(s.db.rows[0], s.db.docs[0], Some(7)))
    && s.verdicts == [SiiPending] && s.polls == [] && s.raises == []
  }

  lemma FirstPosted() returns (actions: seq<Action>)
    ensures DisciplinedBut(actions, -1) && Run(actions).Some? && AnswerReceived(Run(actions).value)
  {
    hide Run, DisciplinedBut, DisciplinedRun;
    var first := Begin(-1);
    actions := PassPosts(first, 0, Some(7), -1);
  }

  lemma SubmitSteps(s: Sys) returns (recorded: Sys, submitted: Sys)
    requires AnswerReceived(s)
    ensures TrackRecorded(s, 0) == Some(recorded) && Submitting(recorded, 0) == Some(submitted)
    ensures Holds(recorded, 0) && InTransit(submitted)
  {
    recorded := TrackRecorded(s, 0).value;
    submitted := Submitting(recorded, 0).value;
  }

  /** The system as the polls see it; `marks` are the polls' positions. */
  ghost predicate Polling(s: Sys, state: PublicState, verdict: SiiVerdict, marks: seq<PollPc>) {
    && Solo(s) && s.db.rows[0].state == state && s.db.rows[0].dteId == Some(0) && s.verdicts == [verdict]
    && |s.db.docs| == 1 && s.db.docs[0].trackId.Some? && s.raises == []
    && |s.polls| == |marks| && forall i :: 0 <= i < |marks| ==>
         s.polls[i].request == 0 && s.polls[i].copy.dteId == Some(0) && s.polls[i].pc == marks[i]
  }

  function TargetOf(verdict: SiiVerdict): PublicState { if verdict == SiiReparo then Observed else Accepted }

  lemma {:induction false} AskAndRead(actions: seq<Action>, q: nat, verdict: SiiVerdict, marks: seq<PollPc>)
    returns (longer: seq<Action>)
    requires DisciplinedBut(actions, -1) && Run(actions).Some? && Polling(Run(actions).value, Submitted, verdict, marks)
    requires q < |marks| && marks[q] == PollStart
    ensures DisciplinedBut(longer, -1) && Run(longer).Some?
    ensures var doc := Run(actions).value.db.docs[0];
            Polling(Run(longer).value, Submitted, verdict, marks[q := Relevant(verdict, doc)])
  {
    hide Run, DisciplinedBut, DisciplinedRun, Asked, RelevantRead, Polling;
    var _, _ := AskSteps(Run(actions).value, q, verdict, marks);
    longer := Then(actions, Ask(q), -1);
    longer := Then(longer, ReadRelevant(q), -1);
  }

  lemma AskSteps(s: Sys, q: nat, verdict: SiiVerdict, marks: seq<PollPc>) returns (asked: Sys, read: Sys)
    requires Polling(s, Submitted, verdict, marks) && q < |marks| && marks[q] == PollStart
    ensures Asked(s, q) == Some(asked) && RelevantRead(asked, q) == Some(read)
    ensures Polling(read, Submitted, verdict, marks[q := Relevant(verdict, s.db.docs[0])])
  {
    asked := Asked(s, q).value;
    read := RelevantRead(asked, q).value;
  }

  lemma {:induction false} WriteAndRefresh(actions: seq<Action>, q: nat, verdict: SiiVerdict, doc: Doc,
                                           marks: seq<PollPc>) returns (longer: seq<Action>)
    requires DisciplinedBut(actions, -1) && Run(actions).Some? && Polling(Run(actions).value, Submitted, verdict, marks)
    requires q < |marks| && marks[q] == Relevant(verdict, doc) && doc.trackId.Some?
             && (verdict == SiiReparo || verdict == SiiAceptado)
    ensures DisciplinedBut(longer, -1) && Run(longer).Some?
    ensures Polling(Run(longer).value, Submitted, verdict, marks[q := Mapped(TargetOf(verdict))])
  {
    hide Run, DisciplinedBut, DisciplinedRun, RelevantWritten, Refreshed, Polling;
    var _, _ := WriteSteps(Run(actions).value, q, verdict, doc, marks);
    longer := Then(actions, WriteRelevant(q), -1);
    longer := Then(longer, Refresh(q), -1);
  }

  lemma WriteSteps(s: Sys, q: nat, verdict: SiiVerdict, doc: Doc, marks: seq<PollPc>)
    returns (written: Sys, refreshed: Sys)
    requires Polling(s, Submitted, verdict, marks) && q < |marks| && marks[q] == Relevant(verdict, doc)
    requires doc.trackId.Some? && (verdict == SiiReparo || verdict == SiiAceptado)
    ensures RelevantWritten(s, q) == Some(written) && Refreshed(written, q) == Some(refreshed)
    ensures Polling(refreshed, Submitted, verdict, marks[q := Mapped(TargetOf(verdict))])
  {
    written := RelevantWritten(s, q).value;
    refreshed := Refreshed(written, q).value;
  }

  lemma {:induction false} Polled(actions: seq<Action>, q: nat, verdict: SiiVerdict, marks: seq<PollPc>)
    returns (longer: seq<Action>)
    requires DisciplinedBut(actions, -1) && Run(actions).Some? && Polling(Run(actions).value, Submitted, verdict, marks)
    requires q < |marks| && marks[q] == PollStart && (verdict == SiiReparo || verdict == SiiAceptado)
    ensures DisciplinedBut(longer, -1) && Run(longer).Some?
    ensures Polling(Run(longer).value, Submitted, verdict, marks[q := Mapped(TargetOf(verdict))])
  {
    hide Run, DisciplinedBut, DisciplinedRun;
    var doc := Run(actions).value.db.docs[0];
    var asked := AskAndRead(actions, q, verdict, marks);
    longer := WriteAndRefresh(asked, q, verdict, doc, marks[q := Relevant(verdict, doc)]);
    assert marks[q := Relevant(verdict, doc)][q := Mapped(TargetOf(verdict))] == marks[q := Mapped(TargetOf(verdict))];
  }

  lemma TwoPolls() returns (actions: seq<Action>)
    ensures DisciplinedBut(actions, -1) && Run(actions).Some?
    ensures Polling(Run(actions).value, Submitted, SiiReparo, [PollStart, PollStart])
  {
    hide Run, DisciplinedBut, DisciplinedRun;
    var submitted := Submission();
    var one := Then(submitted, StartPoll(0), -1);
    var two := Then(one, StartPoll(0), -1);
    actions := Then(two, SiiDecides(0, SiiReparo), -1);
  }

  lemma BothMapped() returns (actions: seq<Action>)
    ensures DisciplinedBut(actions, -1) && Run(actions).Some?
    ensures Polling(Run(actions).value, Submitted, SiiAceptado, [Mapped(Observed), Mapped(Accepted)])
  {
    hide Run, DisciplinedBut, DisciplinedRun;
    var two := TwoPolls();
    var objected := Polled(two, 0, SiiReparo, [PollStart, PollStart]);
    assert [PollStart, PollStart][0 := Mapped(Observed)] == [Mapped(Observed), PollStart];
    var settled := Then(objected, SiiDecides(0, SiiAceptado), -1);
    actions := Polled(settled, 1, SiiAceptado, [Mapped(Observed), PollStart]);
    assert [Mapped(Observed), PollStart][1 := Mapped(Accepted)] == [Mapped(Observed), Mapped(Accepted)];
  }

  lemma AcceptedFirst() returns (actions: seq<Action>)
    ensures DisciplinedBut(actions, -1) && Run(actions).Some?
    ensures Polling(Run(actions).value, Accepted, SiiAceptado, [Mapped(Observed), PollDone])
  {
    hide Run, DisciplinedBut, DisciplinedRun;
    var mapped := BothMapped();
    actions := Then(mapped, ApplyPoll(1), -1);
  }

  /** A poller that asked before the authority settled its objection delivers it
      after the acceptance: the transition is rejected even in a disciplined run. */
  lemma OutdatedObjectionRaises() returns (actions: seq<Action>)
    ensures DisciplinedRun(actions) && Run(actions).Some?
    ensures Run(actions).value.raises == [Raise(true, Accepted, Observed)]
  {
    hide Run, DisciplinedBut, DisciplinedRun;
    var accepted := AcceptedFirst();
    actions := Then(accepted, ApplyPoll(0), -1);
    NoBreach(actions, -1);
  }
}
