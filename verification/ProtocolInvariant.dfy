/** What every disciplined run of the emission protocol keeps. The invariant is
    stated request by request, on the part of the system a request can see. */
module ProtocolInvariant {
  import opened Wrappers
  import opened RequestStates
  import opened DocumentTotals
  import opened EmissionDb
  import opened Protocol
  import FolioLedger
  import LedgerTheorems
  import Outbox

  /** One request's part of the system: row, latest pass, counters, document, verdict, envelopes sent. */
  datatype View = View(row: Row, pc: Option<Pc>, claims: nat, aborted: nat, doc: Option<Doc>, verdict: SiiVerdict,
                       sends: nat)

  function SendCount(sends: seq<Send>, r: nat): nat {
    if sends == [] then 0
    else SendCount(sends[..|sends| - 1], r) + (if sends[|sends| - 1].request == r then 1 else 0)
  }

  function ViewOf(s: Sys, r: nat): View
    requires r < |s.db.rows|
  {
    var row := s.db.rows[r];
    var b := if r < |s.books| then s.books[r] else Book(None, 0, 0);
    View(row,
         if b.lease.Some? && b.lease.value < |s.passes| then Some(s.passes[b.lease.value].pc) else None,
         b.claims, b.aborted, DocOfCopy(s, row),
         if row.dteId.Some? && row.dteId.value < |s.verdicts| then s.verdicts[row.dteId.value] else SiiPending,
         SendCount(s.sends, r))
  }

  // ------------------------------------------------------------ one request

  /** A document status, or an answer, that the verdict can explain; an objection may
      be outdated when it can be revised. */
  predicate Explains(verdict: SiiVerdict, state: PublicState, revisable: bool) {
    match state
    case Accepted => verdict == SiiAceptado
    case Rejected => verdict == SiiRechazado
    case Observed => verdict == SiiReparo || (revisable && verdict != SiiPending)
    case Cancelled => false
    case _ => true
  }

  predicate AnswerOk(answer: SiiVerdict, verdict: SiiVerdict, revisable: bool) {
    match answer
    case SiiPending => true
    case SiiReparo => verdict == SiiReparo || (revisable && verdict != SiiPending)
    case SiiAceptado => verdict == SiiAceptado
    case SiiRechazado => verdict == SiiRechazado
  }

  predicate DocOk(doc: Doc, row: Row, verdict: SiiVerdict, revisable: bool) {
    && doc.typ == row.payload.documentType
    && Explains(verdict, MapDteStatus(doc.status), revisable)
    && (doc.trackId.None? ==> doc.status == Firmado || doc.status == Borrador)
  }

  predicate InFlight(s: PublicState) { s == Submitted || s == Observed || s == Accepted || s == Rejected }

  ghost predicate HistoryOk(row: Row) {
    && IsPath(row.history)
    && var last := row.history[|row.history| - 1].state;
       if row.state == Queued || row.state == Processing then |row.history| == 1 else last == row.state
  }

  /** The latest pass of a request being processed, at each of its points: its copy is the row. */
  predicate PcOk(pc: Pc, v: View) {
    match pc
    case Claimed => true
    case Loaded(copy) => copy == v.row
    case RetryPending(copy, _) => copy == v.row && v.row.dteId.None?
    case Linked(_, copy) => copy == v.row && v.row.dteId.Some? && v.row.transmissionStartedAt.None?
    case Inspecting(copy, doc) => copy == v.row && v.doc == Some(doc)
    case Concluding(_, _) => false
    case Ready(copy) => copy == v.row && v.doc.Some? && v.doc.value.trackId.None?
    case Marked(copy) =>
      && copy == v.row && v.row.transmissionStartedAt.Some? && v.sends == 0
      && v.doc.Some? && v.doc.value.trackId.None?
    case Sending(copy, doc) =>
      copy == v.row && v.row.transmissionStartedAt.Some? && v.sends == 0 && v.doc == Some(doc) && doc.trackId.None?
    case Posted(copy, doc, _) =>
      copy == v.row && v.row.transmissionStartedAt.Some? && v.doc == Some(doc) && doc.trackId.None?
    case Recorded(copy, doc) =>
      copy == v.row && v.row.transmissionStartedAt.Some? && v.doc == Some(doc) && doc.trackId.Some?
    case Quarantining(copy) => copy == v.row && v.row.transmissionStartedAt.Some?
    case Done => v.row.dteId.None?
    case Crashed => true
  }

  ghost predicate RequestOk(v: View, revisable: bool) {
    && v.row.maxAttempts == MAX_ATTEMPTS
    && HistoryOk(v.row)
    && (v.row.dteId.Some? <==> v.doc.Some?)
    && (v.doc.Some? ==> DocOk(v.doc.value, v.row, v.verdict, revisable))
    && (v.row.transmissionStartedAt.Some? ==> v.doc.Some?)
    && v.sends <= 1
    && (v.row.transmissionStartedAt.None? ==>
        v.sends == 0 && (v.doc.Some? ==> v.doc.value.trackId.None? && v.doc.value.status == Firmado))
    && v.claims <= MAX_ATTEMPTS + v.aborted && v.row.attempts <= MAX_ATTEMPTS
    && match v.row.state
       case Queued =>
         v.row.dteId.None? && v.pc.None? && v.row.attempts == 0 && v.claims == 0 && v.aborted == 0
       case Processing =>
         && v.pc.Some? && PcOk(v.pc.value, v)
         && v.row.attempts < MAX_ATTEMPTS
         && v.claims + (if v.pc.value.Done? then 1 else 0) == v.row.attempts + v.aborted + 1
         && (v.doc.Some? ==> !Resolved(MapDteStatus(v.doc.value.status)))
       case Submitted => AfterSubmit(v, revisable)
       case Observed => AfterSubmit(v, revisable)
       case Accepted => AfterSubmit(v, revisable)
       case Rejected => AfterSubmit(v, revisable)
       case Failed => v.pc == Some(Done)
       case Cancelled => false
  }

  predicate AfterSubmit(v: View, revisable: bool) {
    && v.pc == Some(Done) && v.doc.Some? && v.doc.value.trackId.Some? && v.row.transmissionStartedAt.Some?
    && v.row.submittedAt.Some?
    && Explains(v.verdict, v.row.state, revisable)
  }

  /** A poller's copy differs from the row at most in state, history and finalization date. */
  predicate CopyOk(copy: Row, row: Row) {
    copy == row.(state := copy.state, history := copy.history, finalizedAt := copy.finalizedAt)
  }

  predicate PollOk(poll: Poll, v: View, revisable: bool) {
    && InFlight(v.row.state) && CopyOk(poll.copy, v.row)
    && match poll.pc
       case PollStart => true
       case Answered(answer) => AnswerOk(answer, v.verdict, revisable)
       case Relevant(answer, doc) =>
         && AnswerOk(answer, v.verdict, revisable)
         && v.doc.Some? && doc == v.doc.value.(status := doc.status)
         && Explains(v.verdict, MapDteStatus(doc.status), revisable)
       case Written => true
       case Mapped(target) => target in {Accepted, Observed, Rejected} && Explains(v.verdict, target, revisable)
       case PollDone => true
  }

  // ------------------------------------------------------- the whole system

  /** (type, folio) of every document, in creation order. */
  function DocLog(docs: seq<Doc>): seq<(int, int)> {
    seq(|docs|, i requires 0 <= i < |docs| => (docs[i].typ, docs[i].folio))
  }

  function LedgerOf(db: Db): LedgerTheorems.Ledger {
    LedgerTheorems.Ledger(db.config, DocLog(db.docs))
  }

  ghost predicate FoliosOk(db: Db) {
    && LedgerTheorems.LedgerOk(LedgerOf(db))
    && forall t :: LedgerTheorems.Authorized(FolioLedger.Cafs(db.config), t)
                   == LedgerTheorems.CountType(DocLog(db.docs), t)
                     + LedgerTheorems.Remaining(FolioLedger.Cafs(db.config), t)
  }

  /** Requests, documents, passes, polls and sends refer to each other consistently;
      the link between requests and documents is one to one and leaves no document out. */
  ghost predicate Shape(s: Sys) {
    && |s.books| == |s.db.rows| && |s.owners| == |s.db.docs| == |s.verdicts|
    && (forall p :: 0 <= p < |s.passes| ==> s.passes[p].request < |s.db.rows|)
    && (forall r :: 0 <= r < |s.books| ==> s.books[r].lease.Some? ==>
          s.books[r].lease.value < |s.passes| && s.passes[s.books[r].lease.value].request == r)
    && (forall q :: 0 <= q < |s.polls| ==> s.polls[q].request < |s.db.rows|)
    && (forall r :: 0 <= r < |s.db.rows| ==> s.db.rows[r].dteId.Some? ==>
          s.db.rows[r].dteId.value < |s.owners| && s.owners[s.db.rows[r].dteId.value] == r)
    && (forall d :: 0 <= d < |s.owners| ==> s.owners[d] < |s.db.rows| && s.db.rows[s.owners[d]].dteId == Some(d))
    && (forall i :: 0 <= i < |s.sends| ==>
          s.sends[i].request < |s.db.rows| && s.db.rows[s.sends[i].request].dteId == Some(s.sends[i].doc))
  }

  ghost predicate Inv(s: Sys, revisable: bool) {
    && Shape(s)
    && FoliosOk(s.db)
    && (forall r :: 0 <= r < |s.db.rows| ==> RequestOk(ViewOf(s, r), revisable))
    && (forall q :: 0 <= q < |s.polls| ==> PollOk(s.polls[q], ViewOf(s, s.polls[q].request), revisable))
  }

  // --------------------------------------------------------- local changes

  lemma SendCountAppend(sends: seq<Send>, e: Send, r: nat)
    ensures SendCount(sends + [e], r) == SendCount(sends, r) + (if e.request == r then 1 else 0)
  {
    assert (sends + [e])[..|sends|] == sends;
  }

  /** The system after a pass changed its row, its document and its position. */
  function Patch(s: Sys, p: nat, row: Row, doc: Option<Doc>, pc: Pc, sent: bool, box: Outbox.Box): Sys
    requires PassAt(s, p) && (doc.Some? || sent ==> HasDoc(s, row))
  {
    var r := s.passes[p].request;
    s.(db := s.db.(rows := s.db.rows[r := row],
                   docs := if doc.Some? then s.db.docs[row.dteId.value := doc.value] else s.db.docs,
                   outbox := box),
       passes := s.passes[p := s.passes[p].(pc := pc)],
       sends := if sent then s.sends + [Send(r, row.dteId.value)] else s.sends)
  }

  /** The view a patch leaves its request with. */
  function PatchView(v: View, row: Row, doc: Option<Doc>, pc: Pc, sent: bool): View {
    v.(row := row, doc := if doc.Some? then doc else v.doc, pc := Some(pc), sends := v.sends + (if sent then 1 else 0))
  }

  lemma PatchShape(s: Sys, p: nat, row: Row, doc: Option<Doc>, pc: Pc, sent: bool, box: Outbox.Box)
    requires Shape(s) && PassAt(s, p) && Holds(s, p) && (doc.Some? || sent ==> HasDoc(s, row))
    requires row.dteId == s.db.rows[s.passes[p].request].dteId
    ensures Shape(Patch(s, p, row, doc, pc, sent, box))
  {}

  /** Leases and documents of two requests differ. */
  lemma ShapeAt(s: Sys, r: nat, k: nat)
    requires Shape(s) && r < |s.db.rows| && k < |s.db.rows|
    ensures |s.books| == |s.db.rows| && |s.verdicts| == |s.db.docs|
    ensures s.books[k].lease.Some? ==>
              s.books[k].lease.value < |s.passes| && s.passes[s.books[k].lease.value].request == k
    ensures s.db.rows[k].dteId.Some? ==> s.db.rows[k].dteId.value < |s.db.docs|
    ensures k != r && s.db.rows[k].dteId.Some? ==> s.db.rows[k].dteId != s.db.rows[r].dteId
  {}

  lemma PatchViews(s: Sys, p: nat, row: Row, doc: Option<Doc>, pc: Pc, sent: bool, box: Outbox.Box, k: nat)
    requires Shape(s) && PassAt(s, p) && Holds(s, p) && (doc.Some? || sent ==> HasDoc(s, row))
    requires row.dteId == s.db.rows[s.passes[p].request].dteId
    requires k < |s.db.rows|
    ensures ViewOf(Patch(s, p, row, doc, pc, sent, box), k)
         == if k == s.passes[p].request then PatchView(ViewOf(s, k), row, doc, pc, sent) else ViewOf(s, k)
  {
    hide SendCount, Shape;
    ShapeAt(s, s.passes[p].request, k);
    if sent { SendCountAppend(s.sends, Send(s.passes[p].request, row.dteId.value), k); }
  }

  lemma SameFolios(db: Db, db': Db)
    requires FoliosOk(db) && db'.config == db.config && DocLog(db'.docs) == DocLog(db.docs)
    ensures FoliosOk(db')
  {}

  /** The side conditions under which a patch by the lease holder is harmless to everyone else. */
  ghost predicate PatchFits(s: Sys, p: nat, row: Row, doc: Option<Doc>, sent: bool) {
    && PassAt(s, p) && Holds(s, p) && (doc.Some? || sent ==> HasDoc(s, row))
    && var r := s.passes[p].request;
       && s.db.rows[r].state == Processing && row.dteId == s.db.rows[r].dteId
       && (doc.Some? ==>
             && doc.value.typ == s.db.docs[row.dteId.value].typ
             && doc.value.folio == s.db.docs[row.dteId.value].folio)
  }

  lemma ShapePolls(s: Sys)
    requires Shape(s)
    ensures forall q :: 0 <= q < |s.polls| ==> s.polls[q].request < |s.db.rows|
  {}

  lemma PatchPolls(s: Sys, p: nat, row: Row, doc: Option<Doc>, pc: Pc, sent: bool, box: Outbox.Box, revisable: bool,
                   q: nat)
    requires Shape(s) && PatchFits(s, p, row, doc, sent) && q < |s.polls|
    requires PollOk(s.polls[q], ViewOf(s, s.polls[q].request), revisable)
    ensures var s' := Patch(s, p, row, doc, pc, sent, box);
            s'.polls == s.polls && |s'.db.rows| == |s.db.rows|
              && PollOk(s'.polls[q], ViewOf(s', s'.polls[q].request), revisable)
  {
    PatchViews(s, p, row, doc, pc, sent, box, s.polls[q].request);
  }

  lemma PatchFolios(s: Sys, p: nat, row: Row, doc: Option<Doc>, pc: Pc, sent: bool, box: Outbox.Box)
    requires FoliosOk(s.db) && PatchFits(s, p, row, doc, sent)
    ensures FoliosOk(Patch(s, p, row, doc, pc, sent, box).db)
  {
    var s' := Patch(s, p, row, doc, pc, sent, box);
    assert DocLog(s'.db.docs) == DocLog(s.db.docs);
    SameFolios(s.db, s'.db);
  }

  /** A pass that holds its row while the row is being processed keeps the invariant
      as soon as its own request stays consistent. */
  lemma PatchKeeps(s: Sys, p: nat, row: Row, doc: Option<Doc>, pc: Pc, sent: bool, box: Outbox.Box, revisable: bool)
    requires Inv(s, revisable) && PatchFits(s, p, row, doc, sent)
    requires RequestOk(PatchView(ViewOf(s, s.passes[p].request), row, doc, pc, sent), revisable)
    ensures Inv(Patch(s, p, row, doc, pc, sent, box), revisable)
  {
    hide Shape, FoliosOk, RequestOk, PollOk, ViewOf, PatchView;
    var s' := Patch(s, p, row, doc, pc, sent, box);
    PatchShape(s, p, row, doc, pc, sent, box);
    PatchFolios(s, p, row, doc, pc, sent, box);
    ShapePolls(s);
    forall k: nat | k < |s'.db.rows| ensures RequestOk(ViewOf(s', k), revisable) {
      PatchViews(s, p, row, doc, pc, sent, box, k);
    }
    forall q: nat | q < |s'.polls| ensures PollOk(s'.polls[q], ViewOf(s', s'.polls[q].request), revisable) {
      PatchPolls(s, p, row, doc, pc, sent, box, revisable, q);
    }
  }
}
