/** Each action of the protocol keeps the invariant. */
module ProtocolSteps {
  import opened Wrappers
  import opened RequestStates
  import opened DocumentTotals
  import opened EmissionDb
  import opened Protocol
  import opened ProtocolInvariant
  import FolioLedger
  import LedgerTheorems
  import Outbox

  // ---------------------------------------------------- the lease holder

  /** An unfinished pass that holds its row finds the row in processing, seen exactly as its copy. */
  lemma HolderProcessing(s: Sys, p: nat, revisable: bool)
    requires Inv(s, revisable) && Holds(s, p) && !s.passes[p].pc.Done?
    ensures PassAt(s, p)
    ensures var r := s.passes[p].request; var v := ViewOf(s, r);
            && v.row == s.db.rows[r] && v.row.state == Processing && v.pc == Some(s.passes[p].pc)
            && RequestOk(v, revisable)
            && PcOk(s.passes[p].pc, v)
            && v.doc == DocOfCopy(s, v.row)
            && (v.row.dteId.Some? ==> HasDoc(s, v.row))
  {
    assert RequestOk(ViewOf(s, s.passes[p].request), revisable);
  }

  lemma Reposition(s: Sys, p: nat, pc: Pc, revisable: bool)
    requires Inv(s, revisable) && Holds(s, p) && !s.passes[p].pc.Done? && !pc.Done?
    requires PcOk(pc, ViewOf(s, s.passes[p].request))
    ensures Inv(Moved(s, p, pc), revisable)
  {
    hide Inv;
    HolderProcessing(s, p, revisable);
    var r := s.passes[p].request;
    var row := s.db.rows[r];
    assert s.db.rows[r := row] == s.db.rows;
    assert Moved(s, p, pc) == Patch(s, p, row, None, pc, false, s.db.outbox);
    var v := ViewOf(s, r);
    assert PcOk(pc, v) ==> PcOk(pc, PatchView(v, row, None, pc, false));
    PatchKeeps(s, p, row, None, pc, false, s.db.outbox, revisable);
  }

  lemma LoadKeeps(s: Sys, p: nat, revisable: bool)
    requires Inv(s, revisable) && Holds(s, p) && Loading(s, p).Some?
    ensures Inv(Loading(s, p).value, revisable)
  {
    HolderProcessing(s, p, revisable);
    Reposition(s, p, Loaded(s.db.rows[s.passes[p].request]), revisable);
  }

  lemma ReadPreparedKeeps(s: Sys, p: nat, revisable: bool)
    requires Inv(s, revisable) && Holds(s, p) && ReadingPrepared(s, p, true).Some?
    ensures Inv(ReadingPrepared(s, p, true).value, revisable)
  {
    HolderProcessing(s, p, revisable);
    Reposition(s, p, Ready(s.passes[p].pc.copy), revisable);
  }

  lemma InspectKeeps(s: Sys, p: nat, revisable: bool)
    requires Inv(s, revisable) && Holds(s, p) && Inspected(s, p).Some?
    ensures Inv(Inspected(s, p).value, revisable)
  {
    HolderProcessing(s, p, revisable);
    var copy := s.passes[p].pc.copy;
    Reposition(s, p, Inspecting(copy, DocOfCopy(s, copy).value), revisable);
  }

  lemma OpenKeeps(s: Sys, p: nat, revisable: bool)
    requires Inv(s, revisable) && Holds(s, p) && Opening(s, p).Some?
    ensures Inv(Opening(s, p).value, revisable)
  {
    HolderProcessing(s, p, revisable);
    var copy := s.passes[p].pc.copy;
    Reposition(s, p, Sending(copy, DocOfCopy(s, copy).value), revisable);
  }

  lemma AbortSendKeeps(s: Sys, p: nat, revisable: bool)
    requires Inv(s, revisable) && Holds(s, p) && SendAborted(s, p).Some?
    ensures Inv(SendAborted(s, p).value, revisable)
  {
    HolderProcessing(s, p, revisable);
    Reposition(s, p, Quarantining(s.passes[p].pc.copy), revisable);
  }

  lemma CrashKeeps(s: Sys, p: nat, revisable: bool)
    requires Inv(s, revisable) && Holds(s, p) && Crashing(s, p).Some?
    ensures Inv(Crashing(s, p).value, revisable)
  {
    Reposition(s, p, Crashed, revisable);
  }

  // ---------------------------------------------------------- fence and send

  lemma FenceKeeps(s: Sys, p: nat, revisable: bool)
    requires Inv(s, revisable) && Holds(s, p) && Fencing(s, p).Some?
    ensures Inv(Fencing(s, p).value, revisable)
  {
    hide Inv;
    HolderProcessing(s, p, revisable);
    var r := s.passes[p].request;
    var copy := s.passes[p].pc.copy;
    if copy.transmissionStartedAt.Some? {
      Reposition(s, p, Quarantining(copy), revisable);
    } else {
      var row := copy.(transmissionStartedAt := Some(s.clock));
      assert Fencing(s, p).value == Patch(s, p, row, None, Marked(row), false, s.db.outbox);
      PatchKeeps(s, p, row, None, Marked(row), false, s.db.outbox, revisable);
    }
  }

  lemma PostKeeps(s: Sys, p: nat, answer: Option<nat>, revisable: bool)
    requires Inv(s, revisable) && Holds(s, p) && Posting(s, p, answer).Some?
    ensures Inv(Posting(s, p, answer).value, revisable)
  {
    hide Inv;
    HolderProcessing(s, p, revisable);
    var r := s.passes[p].request;
    var row := s.db.rows[r];
    assert s.db.rows[r := row] == s.db.rows;
    var pc := Posted(row, s.passes[p].pc.doc, answer);
    assert Posting(s, p, answer).value == Patch(s, p, row, None, pc, true, s.db.outbox);
    PatchKeeps(s, p, row, None, pc, true, s.db.outbox, revisable);
  }

  lemma RecordKeeps(s: Sys, p: nat, revisable: bool)
    requires Inv(s, revisable) && Holds(s, p) && TrackRecorded(s, p).Some?
    ensures Inv(TrackRecorded(s, p).value, revisable)
  {
    hide Inv;
    HolderProcessing(s, p, revisable);
    var r := s.passes[p].request;
    var row := s.db.rows[r];
    assert s.db.rows[r := row] == s.db.rows;
    var doc := s.passes[p].pc.doc.(status := Enviado, trackId := s.passes[p].pc.answer);
    assert TrackRecorded(s, p).value == Patch(s, p, row, Some(doc), Recorded(row, doc), false, s.db.outbox);
    PatchKeeps(s, p, row, Some(doc), Recorded(row, doc), false, s.db.outbox, revisable);
  }

  lemma FailRecordKeeps(s: Sys, p: nat, written: bool, revisable: bool)
    requires Inv(s, revisable) && Holds(s, p) && RecordFailed(s, p, written).Some?
    ensures Inv(RecordFailed(s, p, written).value, revisable)
  {
    hide Inv;
    HolderProcessing(s, p, revisable);
    var r := s.passes[p].request;
    var row := s.db.rows[r];
    if written {
      assert s.db.rows[r := row] == s.db.rows;
      var s' := RecordFailed(s, p, written).value;
      var doc := s'.db.docs[row.dteId.value];
      assert s' == Patch(s, p, row, Some(doc), Quarantining(row), false, s.db.outbox);
      PatchKeeps(s, p, row, Some(doc), Quarantining(row), false, s.db.outbox, revisable);
    } else {
      Reposition(s, p, Quarantining(row), revisable);
    }
  }

  // ------------------------------------------------------------ final writes

  /** Leaving `processing` for submitted or failed closes the pass. */
  lemma CloseKeeps(s: Sys, p: nat, copy: Row, target: PublicState, revisable: bool)
    requires Inv(s, revisable) && Holds(s, p) && !s.passes[p].pc.Done? && PassAt(s, p)
    requires target == Submitted || target == PublicState.Failed
    requires var row := s.db.rows[s.passes[p].request];
             && copy == row.(attempts := copy.attempts, lastError := copy.lastError)
             && row.attempts <= copy.attempts <= MAX_ATTEMPTS
             && (target == Submitted ==>
                   && copy.attempts < MAX_ATTEMPTS && row.transmissionStartedAt.Some?
                   && DocOfCopy(s, row).Some? && DocOfCopy(s, row).value.trackId.Some?)
    ensures OutcomeOf(s.db, s.passes[p].request, target) == Changed
    ensures Inv(Applying(s, p, copy, target, Done), revisable)
  {
    hide Inv;
    HolderProcessing(s, p, revisable);
    var r := s.passes[p].request;
    var row := s.db.rows[r];
    var row' := Advanced(copy, row, target, s.clock);
    var box := Outbox.Emitted(s.db.outbox, r, target, s.clock);
    assert Applying(s, p, copy, target, Done) == Patch(s, p, row', None, Done, false, box);
    PathExtends(row.history, HistoryEntry(target, Some(Processing), s.clock));
    PatchKeeps(s, p, row', None, Done, false, box, revisable);
  }

  lemma SubmitKeeps(s: Sys, p: nat, revisable: bool)
    requires Inv(s, revisable) && Holds(s, p) && Submitting(s, p).Some?
    ensures Inv(Submitting(s, p).value, revisable) && Submitting(s, p).value.raises == s.raises
  {
    hide Inv;
    HolderProcessing(s, p, revisable);
    CloseKeeps(s, p, s.passes[p].pc.copy, Submitted, revisable);
  }

  lemma QuarantineKeeps(s: Sys, p: nat, revisable: bool)
    requires Inv(s, revisable) && Holds(s, p) && Quarantined(s, p).Some?
    ensures Inv(Quarantined(s, p).value, revisable) && Quarantined(s, p).value.raises == s.raises
  {
    hide Inv;
    HolderProcessing(s, p, revisable);
    CloseKeeps(s, p, QuarantineCopy(s.passes[p].pc.copy), PublicState.Failed, revisable);
  }

  lemma DecideKeeps(s: Sys, p: nat, revisable: bool)
    requires Inv(s, revisable) && Holds(s, p) && Deciding(s, p).Some?
    ensures Inv(Deciding(s, p).value, revisable) && Deciding(s, p).value.raises == s.raises
  {
    hide Inv;
    HolderProcessing(s, p, revisable);
    var copy, doc := s.passes[p].pc.copy, s.passes[p].pc.doc;
    if doc.trackId.Some? {
      CloseKeeps(s, p, copy, Submitted, revisable);
    } else {
      Reposition(s, p, Ready(copy), revisable);
    }
  }

  lemma RetryKeeps(s: Sys, p: nat, revisable: bool)
    requires Inv(s, revisable) && Holds(s, p) && Retrying(s, p).Some?
    ensures Inv(Retrying(s, p).value, revisable) && Retrying(s, p).value.raises == s.raises
  {
    hide Inv;
    HolderProcessing(s, p, revisable);
    var r, copy, code := s.passes[p].request, s.passes[p].pc.copy, s.passes[p].pc.code;
    var next := RetryCopy(copy, code);
    if next.attempts >= EffectiveMax(next) {
      CloseKeeps(s, p, next, PublicState.Failed, revisable);
    } else {
      var row := next.(nextAttemptAt := s.clock + Backoff(next.attempts));
      assert Retrying(s, p).value == Patch(s, p, row, None, Done, false, s.db.outbox);
      PatchKeeps(s, p, row, None, Done, false, s.db.outbox, revisable);
    }
  }

  // ----------------------------------------------------------------- prepare

  /** What a successful prepare adds: one reserved folio and one signed, unsent document. */
  lemma PreparedAdds(db: Db, row: Row, env: PrepareEnv) returns (folio: int)
    requires Prepared(db, row, env).Ok?
    ensures var (db', id) := Prepared(db, row, env).value;
            var t := row.payload.documentType;
            && id == |db.docs| && db'.rows == db.rows && db'.outbox == db.outbox
            && FolioLedger.Reserved(db.config, t) == Ok((db'.config, folio))
            && SignedTotals(row.payload, row.serverTotals.totalAmount).Ok?
            && var amount := SignedTotals(row.payload, row.serverTotals.totalAmount).value.totalAmount;
               db'.docs == db.docs + [Doc(t, folio, amount, Firmado, None)]
  {
    folio := FolioLedger.Reserved(db.config, row.payload.documentType).value.1;
  }

  lemma PreparedFolios(db: Db, row: Row, env: PrepareEnv)
    requires FoliosOk(db) && Prepared(db, row, env).Ok?
    ensures FoliosOk(Prepared(db, row, env).value.0)
  {
    var folio := PreparedAdds(db, row, env);
    var db' := Prepared(db, row, env).value.0;
    var t := row.payload.documentType;
    assert DocLog(db'.docs) == DocLog(db.docs) + [(t, folio)];
    LedgerTheorems.ReserveKeepsLedger(LedgerOf(db), t);
    forall u ensures LedgerTheorems.Authorized(FolioLedger.Cafs(db'.config), u)
                     == LedgerTheorems.CountType(DocLog(db'.docs), u)
                       + LedgerTheorems.Remaining(FolioLedger.Cafs(db'.config), u)
    {
      LedgerTheorems.StepConserves(LedgerOf(db), LedgerTheorems.Reserve(t), u);
    }
  }

  /** The system after pass `p` linked a new document to its request. */
  function Grown(s: Sys, p: nat, config: FolioLedger.Config, doc: Doc): Sys
    requires PassAt(s, p)
  {
    var r := s.passes[p].request;
    var row := s.db.rows[r].(dteId := Some(|s.db.docs|));
    s.(db := s.db.(rows := s.db.rows[r := row], docs := s.db.docs + [doc], config := config),
       owners := s.owners + [r], verdicts := s.verdicts + [SiiPending],
       passes := s.passes[p := Pass(r, Linked(s.db.rows[r], row))])
  }

  lemma GrownViews(s: Sys, p: nat, config: FolioLedger.Config, doc: Doc, k: nat)
    requires Shape(s) && PassAt(s, p) && Holds(s, p) && k < |s.db.rows|
    requires s.db.rows[s.passes[p].request].dteId.None?
    ensures var r := s.passes[p].request; var row := s.db.rows[r].(dteId := Some(|s.db.docs|));
            ViewOf(Grown(s, p, config, doc), k)
            == if k == r
               then ViewOf(s, k).(row := row, doc := Some(doc), verdict := SiiPending,
                                  pc := Some(Linked(s.db.rows[r], row)))
               else ViewOf(s, k)
  {}

  lemma GrownShape(s: Sys, p: nat, config: FolioLedger.Config, doc: Doc)
    requires Shape(s) && PassAt(s, p) && s.db.rows[s.passes[p].request].dteId.None?
    ensures Shape(Grown(s, p, config, doc))
  {}

  lemma GrownRowOk(s: Sys, p: nat, config: FolioLedger.Config, doc: Doc, revisable: bool)
    requires Inv(s, revisable) && Holds(s, p) && s.passes[p].pc.Loaded? && PassAt(s, p)
    requires s.db.rows[s.passes[p].request].dteId.None?
    requires doc.typ == s.db.rows[s.passes[p].request].payload.documentType
    requires doc.status == Firmado && doc.trackId.None?
    ensures RequestOk(ViewOf(Grown(s, p, config, doc), s.passes[p].request), revisable)
  {
    hide FoliosOk, PollOk;
    HolderProcessing(s, p, revisable);
    GrownViews(s, p, config, doc, s.passes[p].request);
    hide Inv, Shape, ViewOf;
  }

  /** No poll is about a request that is being processed. */
  lemma ProcessingUnpolled(s: Sys, p: nat, q: nat, revisable: bool)
    requires Inv(s, revisable) && Holds(s, p) && !s.passes[p].pc.Done? && q < |s.polls|
    ensures PassAt(s, p) && s.polls[q].request < |s.db.rows| && s.polls[q].request != s.passes[p].request
    ensures PollOk(s.polls[q], ViewOf(s, s.polls[q].request), revisable)
  {
    HolderProcessing(s, p, revisable);
    hide FoliosOk, RequestOk;
    assert PollOk(s.polls[q], ViewOf(s, s.polls[q].request), revisable);
  }

  lemma GrownKeeps(s: Sys, p: nat, config: FolioLedger.Config, doc: Doc, revisable: bool)
    requires Inv(s, revisable) && Holds(s, p) && s.passes[p].pc.Loaded? && PassAt(s, p)
    requires s.db.rows[s.passes[p].request].dteId.None?
    requires doc.typ == s.db.rows[s.passes[p].request].payload.documentType && doc.status == Firmado
             && doc.trackId.None?
    requires FoliosOk(Grown(s, p, config, doc).db)
    ensures Inv(Grown(s, p, config, doc), revisable)
  {
    hide Shape, FoliosOk, RequestOk, PollOk, ViewOf;
    var s' := Grown(s, p, config, doc);
    GrownShape(s, p, config, doc);
    forall k: nat | k < |s'.db.rows| ensures RequestOk(ViewOf(s', k), revisable) {
      if k == s.passes[p].request {
        GrownRowOk(s, p, config, doc, revisable);
      } else {
        GrownViews(s, p, config, doc, k);
      }
    }
    forall q: nat | q < |s'.polls| ensures PollOk(s'.polls[q], ViewOf(s', s'.polls[q].request), revisable) {
      ProcessingUnpolled(s, p, q, revisable);
      GrownViews(s, p, config, doc, s.polls[q].request);
    }
  }

  lemma PrepareKeeps(s: Sys, p: nat, env: PrepareEnv, revisable: bool)
    requires Inv(s, revisable) && Holds(s, p) && Preparing(s, p, env).Some?
    ensures Inv(Preparing(s, p, env).value, revisable)
  {
    hide FoliosOk, RequestOk, Shape;
    HolderProcessing(s, p, revisable);
    var r := s.passes[p].request;
    var row := s.db.rows[r];
    match Prepared(s.db, row, env) {
      case Err(e) =>
        Reposition(s, p, RetryPending(row, CodeOf(e)), revisable);
      case Ok((db', id)) =>
        var _ := PreparedAdds(s.db, row, env);
        PreparedFolios(s.db, row, env);
        var doc := db'.docs[id];
        var s' := Grown(s, p, db'.config, doc);
        assert Preparing(s, p, env).value == s';
        SameFolios(db', s'.db);
        GrownKeeps(s, p, db'.config, doc, revisable);
    }
  }

  // ------------------------------------------------------------------- claim

  lemma ClaimViews(s: Sys, r: nat, k: nat)
    requires Shape(s) && ClaimedBy(s, r).Some? && k < |s.db.rows|
    ensures var s' := ClaimedBy(s, r).value; var v := ViewOf(s, k);
            ViewOf(s', k) == if k != r then v
                             else v.(row := ClaimedRow(v.row, s.clock), pc := Some(Claimed), claims := v.claims + 1,
                                     aborted := v.aborted + (if v.pc.Some? && v.pc != Some(Done) then 1 else 0))
  {}

  lemma ClaimShape(s: Sys, r: nat)
    requires Shape(s) && ClaimedBy(s, r).Some?
    ensures Shape(ClaimedBy(s, r).value)
    ensures DocLog(ClaimedBy(s, r).value.db.docs) == DocLog(s.db.docs)
  {}

  lemma ClaimedRowOk(s: Sys, r: nat, revisable: bool)
    requires Shape(s) && ClaimedBy(s, r).Some? && RequestOk(ViewOf(s, r), revisable)
    ensures RequestOk(ViewOf(ClaimedBy(s, r).value, r), revisable)
  {
    ClaimViews(s, r, r);
    hide Shape;
  }

  /** No poll is about a request that can be claimed. */
  lemma ClaimableUnpolled(s: Sys, r: nat, q: nat, revisable: bool)
    requires Shape(s) && q < |s.polls| && ClaimedBy(s, r).Some?
    requires PollOk(s.polls[q], ViewOf(s, s.polls[q].request), revisable)
    ensures s.polls[q].request != r
  {}

  lemma ClaimKeeps(s: Sys, r: nat, revisable: bool)
    requires Inv(s, revisable) && ClaimedBy(s, r).Some?
    ensures Inv(ClaimedBy(s, r).value, revisable)
  {
    hide Shape, FoliosOk, RequestOk, PollOk, ViewOf, Claimable, ClaimedRow;
    var s' := ClaimedBy(s, r).value;
    ClaimShape(s, r);
    SameFolios(s.db, s'.db);
    forall k: nat | k < |s'.db.rows| ensures RequestOk(ViewOf(s', k), revisable) {
      if k == r { ClaimedRowOk(s, r, revisable); } else { ClaimViews(s, r, k); }
    }
    forall q: nat | q < |s'.polls| ensures PollOk(s'.polls[q], ViewOf(s', s'.polls[q].request), revisable) {
      ClaimableUnpolled(s, r, q, revisable);
      ClaimViews(s, r, s.polls[q].request);
    }
  }

  // ------------------------------------------------------------- environment

  /** Rows, documents, passes, polls, books, verdicts and sends untouched: every view is the same. */
  lemma SameViewsKeep(s: Sys, s': Sys, revisable: bool)
    requires Inv(s, revisable)
    requires s' == s.(db := s.db.(config := s'.db.config, outbox := s'.db.outbox), clock := s'.clock)
    requires FoliosOk(s'.db)
    ensures Inv(s', revisable)
  {
    hide RequestOk, PollOk, FoliosOk;
    forall k: nat | k < |s'.db.rows| ensures RequestOk(ViewOf(s', k), revisable) {
      assert ViewOf(s', k) == ViewOf(s, k);
    }
    forall q: nat | q < |s'.polls| ensures PollOk(s'.polls[q], ViewOf(s', s'.polls[q].request), revisable) {
      assert ViewOf(s', s.polls[q].request) == ViewOf(s, s.polls[q].request);
    }
  }

  lemma OutsideKeeps(s: Sys, s': Sys, revisable: bool)
    requires Inv(s, revisable)
    requires s' == s.(db := s.db.(outbox := s'.db.outbox), clock := s'.clock)
    ensures Inv(s', revisable)
  {
    SameFolios(s.db, s'.db);
    SameViewsKeep(s, s', revisable);
  }

  lemma UploadKeeps(s: Sys, caf: FolioLedger.ParsedCaf, revisable: bool)
    requires Inv(s, revisable) && CafUploaded(s, caf).Some?
    ensures Inv(CafUploaded(s, caf).value, revisable)
  {
    var s' := CafUploaded(s, caf).value;
    LedgerTheorems.UploadKeepsLedger(LedgerOf(s.db), caf);
    forall u ensures LedgerTheorems.Authorized(FolioLedger.Cafs(s'.db.config), u)
                     == LedgerTheorems.CountType(DocLog(s'.db.docs), u)
                       + LedgerTheorems.Remaining(FolioLedger.Cafs(s'.db.config), u)
    {
      LedgerTheorems.StepConserves(LedgerOf(s.db), LedgerTheorems.Upload(caf), u);
    }
    SameViewsKeep(s, s', revisable);
  }

  lemma EnqueueViews(s: Sys, payload: Payload, notes: bool, k: nat)
    requires Shape(s) && Enqueued(s, payload, notes).Some? && k <= |s.db.rows|
    ensures var s' := Enqueued(s, payload, notes).value;
            ViewOf(s', k) == if k < |s.db.rows| then ViewOf(s, k)
                             else View(s'.db.rows[k], None, 0, 0, None, SiiPending, 0)
  {
    if k == |s.db.rows| { NoSends(s.sends, k); }
  }

  lemma NoSends(sends: seq<Send>, k: nat)
    requires forall i :: 0 <= i < |sends| ==> sends[i].request < k
    ensures SendCount(sends, k) == 0
  {}

  lemma EnqueueShape(s: Sys, payload: Payload, notes: bool)
    requires Shape(s) && Enqueued(s, payload, notes).Some?
    ensures Shape(Enqueued(s, payload, notes).value)
    ensures DocLog(Enqueued(s, payload, notes).value.db.docs) == DocLog(s.db.docs)
  {
    hide Accept;
  }

  lemma NewRowOk(s: Sys, payload: Payload, notes: bool, revisable: bool)
    requires Shape(s) && Enqueued(s, payload, notes).Some?
    ensures RequestOk(ViewOf(Enqueued(s, payload, notes).value, |s.db.rows|), revisable)
  {
    EnqueueViews(s, payload, notes, |s.db.rows|);
    hide Shape, ViewOf, Accept;
  }

  lemma EnqueueKeeps(s: Sys, payload: Payload, notes: bool, revisable: bool)
    requires Inv(s, revisable) && Enqueued(s, payload, notes).Some?
    ensures Inv(Enqueued(s, payload, notes).value, revisable)
  {
    hide Shape, FoliosOk, RequestOk, PollOk, ViewOf, Accept, NewRow;
    var s' := Enqueued(s, payload, notes).value;
    EnqueueShape(s, payload, notes);
    ShapePolls(s);
    SameFolios(s.db, s'.db);
    forall k: nat | k < |s'.db.rows| ensures RequestOk(ViewOf(s', k), revisable) {
      if k == |s.db.rows| { NewRowOk(s, payload, notes, revisable); } else { EnqueueViews(s, payload, notes, k); }
    }
    forall q: nat | q < |s'.polls| ensures PollOk(s'.polls[q], ViewOf(s', s'.polls[q].request), revisable) {
      EnqueueViews(s, payload, notes, s.polls[q].request);
    }
  }

  lemma DecisionViews(s: Sys, d: nat, v: SiiVerdict, k: nat)
    requires Shape(s) && Decided(s, d, v).Some? && k < |s.db.rows|
    ensures ViewOf(Decided(s, d, v).value, k) == if s.owners[d] == k then ViewOf(s, k).(verdict := v) else ViewOf(s, k)
    ensures s.owners[d] == k ==> ViewOf(s, k).verdict == s.verdicts[d]
  {}

  lemma DecisionOk(view: View, v: SiiVerdict, revisable: bool)
    requires RequestOk(view, revisable)
    ensures MayDecide(view.verdict, v) && (revisable || view.verdict != SiiReparo) ==>
              RequestOk(view.(verdict := v), revisable)
  {
    var view' := view.(verdict := v);
    assert view.pc.Some? ==> PcOk(view.pc.value, view) == PcOk(view.pc.value, view');
  }

  lemma DecisionPollOk(poll: Poll, view: View, v: SiiVerdict, revisable: bool)
    requires PollOk(poll, view, revisable)
    ensures MayDecide(view.verdict, v) && (revisable || view.verdict != SiiReparo)
            ==> PollOk(poll, view.(verdict := v), revisable)
  {}

  /** The authority's decision keeps the invariant; settling an objection does so only if objections may be revised. */
  lemma DecisionKeeps(s: Sys, d: nat, v: SiiVerdict, revisable: bool)
    requires Inv(s, revisable) && Decided(s, d, v).Some? && (revisable || !Revises(s, SiiDecides(d, v)))
    ensures Inv(Decided(s, d, v).value, revisable)
  {
    hide FoliosOk, RequestOk, PollOk, ViewOf;
    var s' := Decided(s, d, v).value;
    assert Shape(s');
    SameFolios(s.db, s'.db);
    forall k: nat | k < |s'.db.rows| ensures RequestOk(ViewOf(s', k), revisable) {
      DecisionViews(s, d, v, k);
      DecisionOk(ViewOf(s, k), v, revisable);
    }
    forall q: nat | q < |s'.polls| ensures PollOk(s'.polls[q], ViewOf(s', s'.polls[q].request), revisable) {
      DecisionViews(s, d, v, s.polls[q].request);
      DecisionPollOk(s.polls[q], ViewOf(s, s.polls[q].request), v, revisable);
    }
  }

  // ----------------------------------------------------------------- polling

  /** Only the position of one poll changes. */
  lemma PollRepositioned(s: Sys, q: nat, pc: PollPc, revisable: bool)
    requires Inv(s, revisable) && PollAt(s, q)
    requires PollOk(s.polls[q].(pc := pc), ViewOf(s, s.polls[q].request), revisable)
    ensures Inv(PollMoved(s, q, pc), revisable)
  {
    hide RequestOk, PollOk, FoliosOk;
    var s' := PollMoved(s, q, pc);
    forall k: nat | k < |s'.db.rows| ensures RequestOk(ViewOf(s', k), revisable) {
      assert ViewOf(s', k) == ViewOf(s, k);
    }
    forall i: nat | i < |s'.polls| ensures PollOk(s'.polls[i], ViewOf(s', s'.polls[i].request), revisable) {
      assert ViewOf(s', s.polls[i].request) == ViewOf(s, s.polls[i].request);
    }
  }

  lemma PollStartKeeps(s: Sys, r: nat, revisable: bool)
    requires Inv(s, revisable) && PollStarted(s, r).Some?
    ensures Inv(PollStarted(s, r).value, revisable)
  {
    hide RequestOk, FoliosOk;
    var s' := PollStarted(s, r).value;
    forall k: nat | k < |s'.db.rows| ensures RequestOk(ViewOf(s', k), revisable) {
      assert ViewOf(s', k) == ViewOf(s, k);
    }
    forall i: nat | i < |s'.polls| ensures PollOk(s'.polls[i], ViewOf(s', s'.polls[i].request), revisable) {
      assert ViewOf(s', s'.polls[i].request) == ViewOf(s, s'.polls[i].request);
    }
  }

  /** What a poll knows of its request. */
  lemma PollFacts(s: Sys, q: nat, revisable: bool)
    requires Inv(s, revisable) && PollAt(s, q)
    ensures var poll := s.polls[q]; var v := ViewOf(s, poll.request); var d := poll.copy.dteId.value;
            && RequestOk(v, revisable) && PollOk(poll, v, revisable) && poll.copy.dteId == v.row.dteId
            && v.row == s.db.rows[poll.request] && v.doc == Some(s.db.docs[d]) && v.verdict == s.verdicts[d]
  {
    assert PollOk(s.polls[q], ViewOf(s, s.polls[q].request), revisable);
  }

  lemma AskKeeps(s: Sys, q: nat, revisable: bool)
    requires Inv(s, revisable) && Asked(s, q).Some?
    ensures Inv(Asked(s, q).value, revisable)
  {
    PollFacts(s, q, revisable);
    PollRepositioned(s, q, Answered(s.verdicts[s.polls[q].copy.dteId.value]), revisable);
  }

  lemma ReadRelevantKeeps(s: Sys, q: nat, revisable: bool)
    requires Inv(s, revisable) && RelevantRead(s, q).Some?
    ensures Inv(RelevantRead(s, q).value, revisable)
  {
    PollFacts(s, q, revisable);
    PollRepositioned(s, q, Relevant(s.polls[q].pc.verdict, s.db.docs[s.polls[q].copy.dteId.value]), revisable);
  }

  lemma RefreshKeeps(s: Sys, q: nat, revisable: bool)
    requires Inv(s, revisable) && Refreshed(s, q).Some?
    ensures Inv(Refreshed(s, q).value, revisable)
  {
    PollFacts(s, q, revisable);
    var mapped := MapDteStatus(s.db.docs[s.polls[q].copy.dteId.value].status);
    PollRepositioned(s, q, if Resolved(mapped) then Mapped(mapped) else PollDone, revisable);
  }

  /** A row or a document of a request in flight changes under a poller's hand. */
  lemma InFlightKeeps(s: Sys, s': Sys, r: nat, d: nat, row: Row, doc: Doc, box: Outbox.Box, revisable: bool)
    requires Inv(s, revisable) && r < |s.db.rows| && s.db.rows[r].dteId == Some(d) && InFlight(s.db.rows[r].state)
    requires d < |s.db.docs|
    requires row.dteId == Some(d) && InFlight(row.state)
             && CopyOk(row, s.db.rows[r]) && doc == s.db.docs[d].(status := doc.status)
    requires s' == s.(db := s.db.(rows := s.db.rows[r := row], docs := s.db.docs[d := doc], outbox := box))
    requires RequestOk(ViewOf(s, r).(row := row, doc := Some(doc)), revisable)
    ensures Inv(s', revisable)
  {
    hide Shape, FoliosOk, RequestOk, PollOk, ViewOf, CopyOk;
    InFlightShape(s, s', r, d, row, doc, box);
    ShapePolls(s);
    SameFolios(s.db, s'.db);
    forall k: nat | k < |s'.db.rows| ensures RequestOk(ViewOf(s', k), revisable) {
      InFlightViews(s, s', r, d, row, doc, box, k);
    }
    forall i: nat | i < |s'.polls| ensures PollOk(s'.polls[i], ViewOf(s', s'.polls[i].request), revisable) {
      InFlightViews(s, s', r, d, row, doc, box, s.polls[i].request);
      if s.polls[i].request == r { InFlightPollOk(s, i, d, row, doc, revisable); }
    }
  }

  lemma InFlightShape(s: Sys, s': Sys, r: nat, d: nat, row: Row, doc: Doc, box: Outbox.Box)
    requires Shape(s) && r < |s.db.rows| && s.db.rows[r].dteId == Some(d) && d < |s.db.docs| && row.dteId == Some(d)
    requires doc == s.db.docs[d].(status := doc.status)
    requires s' == s.(db := s.db.(rows := s.db.rows[r := row], docs := s.db.docs[d := doc], outbox := box))
    ensures Shape(s') && DocLog(s'.db.docs) == DocLog(s.db.docs)
  {}

  /** A poller does not notice a change of state, history, finalization date or document status. */
  lemma InFlightPollOk(s: Sys, q: nat, d: nat, row: Row, doc: Doc, revisable: bool)
    requires q < |s.polls| && s.polls[q].request < |s.db.rows| && d < |s.db.docs|
    requires s.db.rows[s.polls[q].request].dteId == Some(d) && doc == s.db.docs[d].(status := doc.status)
    requires InFlight(row.state) && CopyOk(row, s.db.rows[s.polls[q].request])
    requires PollOk(s.polls[q], ViewOf(s, s.polls[q].request), revisable)
    ensures PollOk(s.polls[q], ViewOf(s, s.polls[q].request).(row := row, doc := Some(doc)), revisable)
  {}

  lemma InFlightViews(s: Sys, s': Sys, r: nat, d: nat, row: Row, doc: Doc, box: Outbox.Box, k: nat)
    requires Shape(s) && r < |s.db.rows| && s.db.rows[r].dteId == Some(d) && d < |s.db.docs| && row.dteId == Some(d)
    requires s' == s.(db := s.db.(rows := s.db.rows[r := row], docs := s.db.docs[d := doc], outbox := box))
    requires k < |s.db.rows|
    ensures ViewOf(s', k) == if k == r then ViewOf(s, k).(row := row, doc := Some(doc)) else ViewOf(s, k)
  {}

  lemma WriteRelevantKeeps(s: Sys, q: nat, revisable: bool)
    requires Inv(s, revisable) && RelevantWritten(s, q).Some?
    ensures Inv(RelevantWritten(s, q).value, revisable)
  {
    hide Inv;
    PollFacts(s, q, revisable);
    var poll := s.polls[q];
    var r, d := poll.request, poll.copy.dteId.value;
    var doc := poll.pc.doc.(status := StatusAfter(poll.pc.verdict, poll.pc.doc.status));
    var row := s.db.rows[r];
    assert s.db.rows[r := row] == s.db.rows;
    var s1 := s.(db := DocWritten(s.db, d, doc));
    InFlightKeeps(s, s1, r, d, row, doc, s.db.outbox, revisable);
    PollFacts(s1, q, revisable);
    PollRepositioned(s1, q, Written, revisable);
  }

  /** A poller's transition is rejected exactly when it brings an outdated objection to a settled request. */
  lemma PollOutcome(s: Sys, q: nat, revisable: bool)
    requires Inv(s, revisable) && PollAt(s, q) && s.polls[q].pc.Mapped?
    ensures var r, target := s.polls[q].request, s.polls[q].pc.target; var state := s.db.rows[r].state;
            && (OutcomeOf(s.db, r, target) == InvalidTransition <==>
                target == Observed && (state == Accepted || state == Rejected))
            && (OutcomeOf(s.db, r, target) == InvalidTransition ==> revisable)
  {
    PollFacts(s, q, revisable);
  }

  /** The row a poller's transition writes. */
  lemma ChangedRowOk(s: Sys, q: nat, revisable: bool)
    requires Inv(s, revisable) && PollAt(s, q) && s.polls[q].pc.Mapped?
    requires OutcomeOf(s.db, s.polls[q].request, s.polls[q].pc.target) == Changed
    ensures var poll := s.polls[q]; var r, d := poll.request, poll.copy.dteId.value;
            var row := Advanced(poll.copy, s.db.rows[r], poll.pc.target, s.clock);
            && RequestOk(ViewOf(s, r).(row := row, doc := Some(s.db.docs[d])), revisable)
            && InFlight(row.state) && CopyOk(row, s.db.rows[r])
  {
    hide Inv, Outbox.Emitted, FoliosOk;
    PollFacts(s, q, revisable);
    PollOutcome(s, q, revisable);
    var poll := s.polls[q];
    var r, target := poll.request, poll.pc.target;
    PathExtends(s.db.rows[r].history, HistoryEntry(target, Some(s.db.rows[r].state), s.clock));
  }

  lemma ApplyPollKeeps(s: Sys, q: nat, revisable: bool)
    requires Inv(s, revisable) && PollApplied(s, q).Some?
    ensures Inv(PollApplied(s, q).value, revisable)
  {
    hide Inv, RequestOk, Outbox.Emitted, FoliosOk;
    PollFacts(s, q, revisable);
    PollOutcome(s, q, revisable);
    var poll := s.polls[q];
    var r, target, d := poll.request, poll.pc.target, poll.copy.dteId.value;
    if OutcomeOf(s.db, r, target) == Changed {
      var row := Advanced(poll.copy, s.db.rows[r], target, s.clock);
      var doc := s.db.docs[d];
      assert s.db.docs[d := doc] == s.db.docs;
      var s1 := s.(db := StateApplied(s.db, r, poll.copy, target, s.clock));
      ChangedRowOk(s, q, revisable);
      InFlightKeeps(s, s1, r, d, row, doc, s1.db.outbox, revisable);
      PollFacts(s1, q, revisable);
      PollRepositioned(s1, q, PollDone, revisable);
    } else {
      PollRepositioned(s, q, PollDone, revisable);
      RaisesIrrelevant(PollMoved(s, q, PollDone), PollApplied(s, q).value.raises, revisable);
    }
  }

  lemma RaisesIrrelevant(s: Sys, raises: seq<Raise>, revisable: bool)
    requires Inv(s, revisable)
    ensures Inv(s.(raises := raises), revisable)
  {
    hide RequestOk, PollOk, FoliosOk;
    var s' := s.(raises := raises);
    forall k: nat | k < |s'.db.rows| ensures RequestOk(ViewOf(s', k), revisable) {
      assert ViewOf(s', k) == ViewOf(s, k);
    }
    forall q: nat | q < |s'.polls| ensures PollOk(s'.polls[q], ViewOf(s', s'.polls[q].request), revisable) {
      assert ViewOf(s', s.polls[q].request) == ViewOf(s, s.polls[q].request);
    }
  }

  // ---------------------------------------------------------------- any step

  /** Settling an objection. */
  predicate Revises(s: Sys, a: Action) {
    a.SiiDecides? && a.d < |s.verdicts| && s.verdicts[a.d] == SiiReparo
  }

  lemma EnvironmentKeeps(s: Sys, a: Action, revisable: bool)
    requires Inv(s, revisable) && PassOf(a).None? && Next(s, a).Some? && (revisable || !Revises(s, a))
    ensures Inv(Next(s, a).value, revisable)
  {
    hide Inv, Enqueued, CafUploaded, Decided, ClaimedBy, PollStarted, Asked, RelevantRead, RelevantWritten, Refreshed,
         PollApplied;
    match a
    case Enqueue(payload, notes) => EnqueueKeeps(s, payload, notes, revisable);
    case UploadCaf(caf) => UploadKeeps(s, caf, revisable);
    case RegisterEndpoint(_) =>
      OutsideKeeps(s, Next(s, a).value, revisable);
    case DeactivateEndpoint(_) =>
      OutsideKeeps(s, Next(s, a).value, revisable);
    case Tick(_) => OutsideKeeps(s, Next(s, a).value, revisable);
    case SiiDecides(d, v) => DecisionKeeps(s, d, v, revisable);
    case Claim(r) => ClaimKeeps(s, r, revisable);
    case StartPoll(r) => PollStartKeeps(s, r, revisable);
    case Ask(q) => AskKeeps(s, q, revisable);
    case ReadRelevant(q) => ReadRelevantKeeps(s, q, revisable);
    case WriteRelevant(q) => WriteRelevantKeeps(s, q, revisable);
    case Refresh(q) => RefreshKeeps(s, q, revisable);
    case ApplyPoll(q) => ApplyPollKeeps(s, q, revisable);
  }

  /** The lease holder never stands at an observed verdict: its document was not resolved. */
  lemma NeverConcluding(s: Sys, p: nat, revisable: bool)
    requires Inv(s, revisable) && Holds(s, p)
    ensures Concluded(s, p).None?
  {
    hide Shape, FoliosOk, PollOk;
    if Concluded(s, p).Some? { HolderProcessing(s, p, revisable); }
  }

  lemma PassKeeps(s: Sys, a: Action, revisable: bool)
    requires Inv(s, revisable) && PassOf(a).Some? && Disciplined(s, a) && Next(s, a).Some?
    ensures Inv(Next(s, a).value, revisable)
  {
    hide Inv, Loading, Preparing, ReadingPrepared, Retrying, Inspected, Deciding, Fencing, Opening, SendAborted,
         Posting, TrackRecorded, RecordFailed, Submitting, Quarantined, Crashing, Concluded;
    match a
    case Load(p) => LoadKeeps(s, p, revisable);
    case Prepare(p, env) => PrepareKeeps(s, p, env, revisable);
    case ReadPrepared(p) => ReadPreparedKeeps(s, p, revisable);
    case Retry(p) => RetryKeeps(s, p, revisable);
    case Inspect(p) => InspectKeeps(s, p, revisable);
    case Decide(p) => DecideKeeps(s, p, revisable);
    case Conclude(p) => NeverConcluding(s, p, revisable);
    case Fence(p) => FenceKeeps(s, p, revisable);
    case OpenDocument(p) => OpenKeeps(s, p, revisable);
    case AbortSend(p) => AbortSendKeeps(s, p, revisable);
    case Post(p, answer) => PostKeeps(s, p, answer, revisable);
    case RecordTrack(p) => RecordKeeps(s, p, revisable);
    case FailRecord(p, written) => FailRecordKeeps(s, p, written, revisable);
    case Submit(p) => SubmitKeeps(s, p, revisable);
    case Quarantine(p) => QuarantineKeeps(s, p, revisable);
    case Crash(p) => CrashKeeps(s, p, revisable);
  }

  /** Every disciplined step keeps the invariant. */
  lemma StepKeeps(s: Sys, a: Action, revisable: bool)
    requires Inv(s, revisable) && Disciplined(s, a) && Next(s, a).Some? && (revisable || !Revises(s, a))
    ensures Inv(Next(s, a).value, revisable)
  {
    if PassOf(a).Some? { PassKeeps(s, a, revisable); } else { EnvironmentKeeps(s, a, revisable); }
  }

  lemma StartOk(revisable: bool)
    ensures Inv(START, revisable)
  {}

  /** No objection was settled along the run. */
  predicate NoRevision(actions: seq<Action>)
    requires DisciplinedRun(actions)
  {
    actions == [] ||
    (NoRevision(actions[..|actions| - 1]) && !Revises(Run(actions[..|actions| - 1]).value, actions[|actions| - 1]))
  }

  /** Every disciplined run keeps the invariant. */
  lemma {:induction false} RunKeeps(actions: seq<Action>, revisable: bool)
    requires DisciplinedRun(actions) && (revisable || NoRevision(actions))
    ensures Run(actions).Some? && Inv(Run(actions).value, revisable)
  {
    if actions == [] {
      StartOk(revisable);
    } else {
      RunKeeps(actions[..|actions| - 1], revisable);
      StepKeeps(Run(actions[..|actions| - 1]).value, actions[|actions| - 1], revisable);
    }
  }
}
