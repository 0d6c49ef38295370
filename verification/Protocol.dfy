/** The emission protocol as a step relation: any number of worker passes and
    pollers over the durable state, with crashes, lease expiry and a tax
    authority that answers as it likes. One step is one atomic database
    operation, one read, or one call to the tax authority. */
module Protocol {
  import opened Wrappers
  import opened RequestStates
  import opened DocumentTotals
  import opened EmissionDb
  import FolioLedger
  import Outbox

  /** Where a worker pass stands; `copy` is its own copy of the row. */
  datatype Pc =
    | Claimed
    | Loaded(copy: Row)
    | RetryPending(copy: Row, code: ErrorCode)
    | Linked(stale: Row, copy: Row)
    | Inspecting(copy: Row, doc: Doc)
    | Concluding(copy: Row, target: PublicState)
    | Ready(copy: Row)
    | Marked(copy: Row)
    | Sending(copy: Row, doc: Doc)
    | Posted(copy: Row, doc: Doc, answer: Option<nat>)
    | Recorded(copy: Row, doc: Doc)
    | Quarantining(copy: Row)
    | Done
    | Crashed

  datatype Pass = Pass(request: nat, pc: Pc)

  datatype SiiVerdict = SiiPending | SiiReparo | SiiAceptado | SiiRechazado

  datatype PollPc =
    | PollStart
    | Answered(verdict: SiiVerdict)
    | Relevant(verdict: SiiVerdict, doc: Doc)
    | Written
    | Mapped(target: PublicState)
    | PollDone

  datatype Poll = Poll(request: nat, copy: Row, pc: PollPc)

  /** Bookkeeping about a request, outside the code: the pass of its latest
      claim, how often it was claimed, and how many passes were cut short. */
  datatype Book = Book(lease: Option<nat>, claims: nat, aborted: nat)

  datatype Send = Send(request: nat, doc: nat)

  datatype Raise = Raise(byPoll: bool, from: PublicState, to: PublicState)

  /** `owners`, `verdicts`, `sends` and `raises` are logs the code does not keep:
      for each document its request and the authority's verdict, every envelope
      posted, and every rejected transition. */
  datatype Sys = Sys(db: Db, clock: int, passes: seq<Pass>, polls: seq<Poll>, books: seq<Book>,
                     owners: seq<nat>, verdicts: seq<SiiVerdict>, sends: seq<Send>, raises: seq<Raise>)

  datatype Action =
    | Enqueue(payload: Payload, allowNotes: bool)
    | UploadCaf(caf: FolioLedger.ParsedCaf)
    | RegisterEndpoint(subscribed: set<PublicState>)
    | DeactivateEndpoint(endpoint: nat)
    | Tick(elapsed: nat)
    | SiiDecides(d: nat, verdict: SiiVerdict)
    | Claim(r: nat)
    | Load(p: nat)
    | Prepare(p: nat, env: PrepareEnv)
    | ReadPrepared(p: nat)
    | LoseRead(p: nat)
    | Retry(p: nat)
    | Inspect(p: nat)
    | Decide(p: nat)
    | Conclude(p: nat)
    | Fence(p: nat)
    | OpenDocument(p: nat)
    | AbortSend(p: nat)
    | Post(p: nat, answer: Option<nat>)
    | RecordTrack(p: nat)
    | FailRecord(p: nat, written: bool)
    | Submit(p: nat)
    | Quarantine(p: nat)
    | Crash(p: nat)
    | StartPoll(r: nat)
    | Ask(q: nat)
    | ReadRelevant(q: nat)
    | WriteRelevant(q: nat)
    | Refresh(q: nat)
    | ApplyPoll(q: nat)

  const START: Sys := Sys(Db([], [], FolioLedger.Missing, Outbox.Box([], [], [])), 0, [], [], [], [], [], [], [])

  // ---------------------------------------------------------- environment

  function Enqueued(s: Sys, payload: Payload, allowNotes: bool): Option<Sys> {
    if Accept(payload, allowNotes).Err? then None
    else Some(s.(db := s.db.(rows := s.db.rows + [NewRow(payload, Accept(payload, allowNotes).value, s.clock)]),
                 books := s.books + [Book(None, 0, 0)]))
  }

  function CafUploaded(s: Sys, caf: FolioLedger.ParsedCaf): Option<Sys> {
    if !FolioLedger.WellFormed(caf) then None
    else
      match FolioLedger.Uploaded(FolioLedger.Cafs(s.db.config), caf)
      case Err(_) => None
      case Ok(cafs) => Some(s.(db := s.db.(config := FolioLedger.Config(cafs))))
  }

  function WithEndpoints(s: Sys, endpoints: seq<Outbox.Endpoint>): Sys {
    s.(db := s.db.(outbox := s.db.outbox.(endpoints := endpoints)))
  }

  function EndpointRegistered(s: Sys, subscribed: set<PublicState>): Sys {
    WithEndpoints(s, s.db.outbox.endpoints + [Outbox.Endpoint(true, subscribed)])
  }

  function EndpointDeactivated(s: Sys, id: nat): Option<Sys> {
    if id >= |s.db.outbox.endpoints| then None
    else Some(WithEndpoints(s, s.db.outbox.endpoints[id := s.db.outbox.endpoints[id].(active := false)]))
  }

  /** The authority decides once; only an objection may later be settled. */
  predicate MayDecide(old_: SiiVerdict, new_: SiiVerdict) {
    match old_
    case SiiPending => new_ != SiiPending
    case SiiReparo => new_ == SiiAceptado || new_ == SiiRechazado
    case SiiAceptado => false
    case SiiRechazado => false
  }

  function Decided(s: Sys, d: nat, v: SiiVerdict): Option<Sys> {
    if d < |s.verdicts| && MayDecide(s.verdicts[d], v) then Some(s.(verdicts := s.verdicts[d := v])) else None
  }

  // ------------------------------------------------------------ worker pass

  /** A claim starts a new pass and takes the lease; an unfinished earlier pass counts as cut short. */
  function ClaimedBy(s: Sys, r: nat): Option<Sys> {
    if r < |s.db.rows| && r < |s.books| && Claimable(s.db.rows[r], s.clock) then
      var b := s.books[r];
      var cut := b.lease.Some? && b.lease.value < |s.passes| && s.passes[b.lease.value].pc != Done;
      Some(s.(db := s.db.(rows := s.db.rows[r := ClaimedRow(s.db.rows[r], s.clock)]),
              passes := s.passes + [Pass(r, Claimed)],
              books := s.books[r := Book(Some(|s.passes|), b.claims + 1, b.aborted + (if cut then 1 else 0))]))
    else None
  }

  predicate PassAt(s: Sys, p: nat) {
    p < |s.passes| && s.passes[p].request < |s.db.rows|
  }

  function Moved(s: Sys, p: nat, pc: Pc): Sys
    requires p < |s.passes|
  {
    s.(passes := s.passes[p := s.passes[p].(pc := pc)])
  }

  function DocOfCopy(s: Sys, copy: Row): Option<Doc> {
    if copy.dteId.Some? && copy.dteId.value < |s.db.docs| then Some(s.db.docs[copy.dteId.value]) else None
  }

  /** `applyState` from a pass: a rejected transition surfaces as an exception that ends the pass. */
  function Applying(s: Sys, p: nat, copy: Row, target: PublicState, next: Pc): Sys
    requires PassAt(s, p)
  {
    var r := s.passes[p].request;
    if OutcomeOf(s.db, r, target) == InvalidTransition then
      Moved(s.(raises := s.raises + [Raise(false, s.db.rows[r].state, target)]), p, Crashed)
    else
      Moved(s.(db := StateApplied(s.db, r, copy, target, s.clock)), p, next)
  }

  function Loading(s: Sys, p: nat): Option<Sys> {
    if PassAt(s, p) && s.passes[p].pc.Claimed? then Some(Moved(s, p, Loaded(s.db.rows[s.passes[p].request]))) else None
  }

  function Preparing(s: Sys, p: nat, env: PrepareEnv): Option<Sys> {
    if PassAt(s, p) && s.passes[p].pc.Loaded? && s.passes[p].pc.copy.dteId.None? then
      var r, copy := s.passes[p].request, s.passes[p].pc.copy;
      match PreparedAndLinked(s.db, r, env)
      case Err(e) => Some(Moved(s, p, RetryPending(copy, CodeOf(e))))
      case Ok(db) =>
        var grown := |db.docs| > |s.db.docs|;
        Some(Moved(s.(db := db,
                      owners := if grown then s.owners + [r] else s.owners,
                      verdicts := if grown then s.verdicts + [SiiPending] else s.verdicts),
                   p, Linked(copy, db.rows[r])))
    else None
  }

  function ReadingPrepared(s: Sys, p: nat, found: bool): Option<Sys> {
    if PassAt(s, p) && s.passes[p].pc.Linked? then
      Some(Moved(s, p, if found then Ready(s.passes[p].pc.copy)
                       else RetryPending(s.passes[p].pc.stale, SiiUnavailable)))
    else None
  }

  function Retrying(s: Sys, p: nat): Option<Sys> {
    if PassAt(s, p) && s.passes[p].pc.RetryPending? then
      var r, copy, code := s.passes[p].request, s.passes[p].pc.copy, s.passes[p].pc.code;
      var next := RetryCopy(copy, code);
      if next.attempts >= EffectiveMax(next) then Some(Applying(s, p, next, PublicState.Failed, Done))
      else Some(Moved(s.(db := RetryScheduled(s.db, r, copy, code, s.clock)), p, Done))
    else None
  }

  function Inspected(s: Sys, p: nat): Option<Sys> {
    if PassAt(s, p) && s.passes[p].pc.Loaded? && s.passes[p].pc.copy.dteId.Some? then
      var copy := s.passes[p].pc.copy;
      match DocOfCopy(s, copy)
      case None => Some(Moved(s, p, RetryPending(copy, SiiUnavailable)))
      case Some(doc) => Some(Moved(s, p, Inspecting(copy, doc)))
    else None
  }

  function Deciding(s: Sys, p: nat): Option<Sys> {
    if PassAt(s, p) && s.passes[p].pc.Inspecting? then
      var r, copy, doc := s.passes[p].request, s.passes[p].pc.copy, s.passes[p].pc.doc;
      var mapped := MapDteStatus(doc.status);
      if Resolved(mapped) then
        if copy.state == Processing then
          var s' := Applying(s, p, copy, Submitted, Done);
          if s'.passes[p].pc == Crashed then Some(s') else Some(Moved(s', p, Concluding(s'.db.rows[r], mapped)))
        else Some(Moved(s, p, Concluding(copy, mapped)))
      else if doc.trackId.Some? then Some(Applying(s, p, copy, Submitted, Done))
      else Some(Moved(s, p, Ready(copy)))
    else None
  }

  function Concluded(s: Sys, p: nat): Option<Sys> {
    if PassAt(s, p) && s.passes[p].pc.Concluding? then
      Some(Applying(s, p, s.passes[p].pc.copy, s.passes[p].pc.target, Done))
    else None
  }

  /** Fence check on the copy, then `markAttempt` under the row lock. */
  function Fencing(s: Sys, p: nat): Option<Sys> {
    if PassAt(s, p) && s.passes[p].pc.Ready? then
      var r, copy := s.passes[p].request, s.passes[p].pc.copy;
      if copy.transmissionStartedAt.Some? || s.db.rows[r].transmissionStartedAt.Some? then
        Some(Moved(s, p, Quarantining(copy)))
      else
        Some(Moved(s.(db := Fenced(s.db, r, s.clock)), p, Marked(copy.(transmissionStartedAt := Some(s.clock)))))
    else None
  }

  function Opening(s: Sys, p: nat): Option<Sys> {
    if PassAt(s, p) && s.passes[p].pc.Marked? then
      var copy := s.passes[p].pc.copy;
      match DocOfCopy(s, copy)
      case None => Some(Moved(s, p, Quarantining(copy)))
      case Some(doc) => Some(Moved(s, p, Sending(copy, doc)))
    else None
  }

  function SendAborted(s: Sys, p: nat): Option<Sys> {
    if PassAt(s, p) && s.passes[p].pc.Sending? then Some(Moved(s, p, Quarantining(s.passes[p].pc.copy))) else None
  }

  function Posting(s: Sys, p: nat, answer: Option<nat>): Option<Sys> {
    if PassAt(s, p) && s.passes[p].pc.Sending? && s.passes[p].pc.copy.dteId.Some? then
      var copy, doc := s.passes[p].pc.copy, s.passes[p].pc.doc;
      Some(Moved(s.(sends := s.sends + [Send(s.passes[p].request, copy.dteId.value)]), p, Posted(copy, doc, answer)))
    else None
  }

  predicate HasDoc(s: Sys, copy: Row) { copy.dteId.Some? && copy.dteId.value < |s.db.docs| }

  function TrackRecorded(s: Sys, p: nat): Option<Sys> {
    if PassAt(s, p) && s.passes[p].pc.Posted? && s.passes[p].pc.answer.Some? && HasDoc(s, s.passes[p].pc.copy) then
      var copy := s.passes[p].pc.copy;
      var doc := s.passes[p].pc.doc.(status := Enviado, trackId := s.passes[p].pc.answer);
      Some(Moved(s.(db := DocWritten(s.db, copy.dteId.value, doc)), p, Recorded(copy, doc)))
    else None
  }

  /** The send, or what follows it, failed: the document goes back to draft (if that write succeeds). */
  function RecordFailed(s: Sys, p: nat, written: bool): Option<Sys> {
    if PassAt(s, p) && (s.passes[p].pc.Posted? || s.passes[p].pc.Recorded?) && HasDoc(s, s.passes[p].pc.copy) then
      var copy := s.passes[p].pc.copy;
      var track := if s.passes[p].pc.Posted? && s.passes[p].pc.answer.Some? then s.passes[p].pc.answer
                   else s.passes[p].pc.doc.trackId;
      var doc := s.passes[p].pc.doc.(status := Borrador, trackId := track);
      var s' := if written then s.(db := DocWritten(s.db, copy.dteId.value, doc)) else s;
      Some(Moved(s', p, Quarantining(copy)))
    else None
  }

  function Submitting(s: Sys, p: nat): Option<Sys> {
    if PassAt(s, p) && s.passes[p].pc.Recorded? then Some(Applying(s, p, s.passes[p].pc.copy, Submitted, Done))
    else None
  }

  function Quarantined(s: Sys, p: nat): Option<Sys> {
    if PassAt(s, p) && s.passes[p].pc.Quarantining? then
      Some(Applying(s, p, QuarantineCopy(s.passes[p].pc.copy), PublicState.Failed, Done))
    else None
  }

  function Crashing(s: Sys, p: nat): Option<Sys> {
    if PassAt(s, p) && !s.passes[p].pc.Done? then Some(Moved(s, p, Crashed)) else None
  }

  // ---------------------------------------------------------------- polling

  predicate PollAt(s: Sys, q: nat) {
    q < |s.polls| && s.polls[q].request < |s.db.rows| && HasDoc(s, s.polls[q].copy)
      && s.polls[q].copy.dteId.value < |s.verdicts|
  }

  function PollMoved(s: Sys, q: nat, pc: PollPc): Sys
    requires q < |s.polls|
  {
    s.(polls := s.polls[q := s.polls[q].(pc := pc)])
  }

  function PollStarted(s: Sys, r: nat): Option<Sys> {
    if r < |s.db.rows| && (s.db.rows[r].state == Submitted || s.db.rows[r].state == Observed) then
      Some(s.(polls := s.polls + [Poll(r, s.db.rows[r], PollStart)]))
    else None
  }

  /** Only documents with a TrackID are asked about. */
  function Asked(s: Sys, q: nat): Option<Sys> {
    if PollAt(s, q) && s.polls[q].pc.PollStart? && s.db.docs[s.polls[q].copy.dteId.value].trackId.Some? then
      Some(PollMoved(s, q, Answered(s.verdicts[s.polls[q].copy.dteId.value])))
    else None
  }

  function RelevantRead(s: Sys, q: nat): Option<Sys> {
    if PollAt(s, q) && s.polls[q].pc.Answered? then
      Some(PollMoved(s, q, Relevant(s.polls[q].pc.verdict, s.db.docs[s.polls[q].copy.dteId.value])))
    else None
  }

  function StatusAfter(v: SiiVerdict, status: DteStatus): DteStatus {
    match v
    case SiiPending => status
    case SiiReparo => Reparo
    case SiiAceptado => Aceptado
    case SiiRechazado => Rechazado
  }

  /** The whole document copy is written back, with the answered status if there is one. */
  function RelevantWritten(s: Sys, q: nat): Option<Sys> {
    if PollAt(s, q) && s.polls[q].pc.Relevant? then
      var doc := s.polls[q].pc.doc;
      var doc' := doc.(status := StatusAfter(s.polls[q].pc.verdict, doc.status));
      Some(PollMoved(s.(db := DocWritten(s.db, s.polls[q].copy.dteId.value, doc')), q, Written))
    else None
  }

  function Refreshed(s: Sys, q: nat): Option<Sys> {
    if PollAt(s, q) && s.polls[q].pc.Written? then
      var mapped := MapDteStatus(s.db.docs[s.polls[q].copy.dteId.value].status);
      Some(PollMoved(s, q, if Resolved(mapped) then Mapped(mapped) else PollDone))
    else None
  }

  function PollApplied(s: Sys, q: nat): Option<Sys> {
    if PollAt(s, q) && s.polls[q].pc.Mapped? then
      var r, target := s.polls[q].request, s.polls[q].pc.target;
      var s' := if OutcomeOf(s.db, r, target) == InvalidTransition
                then s.(raises := s.raises + [Raise(true, s.db.rows[r].state, target)])
                else s.(db := StateApplied(s.db, r, s.polls[q].copy, target, s.clock));
      Some(PollMoved(s', q, PollDone))
    else None
  }

  // ------------------------------------------------------------------- runs

  /** The successor of a state under an action, if the action is enabled. */
  function Next(s: Sys, a: Action): Option<Sys> {
    match a
    case Enqueue(payload, notes) => Enqueued(s, payload, notes)
    case UploadCaf(caf) => CafUploaded(s, caf)
    case RegisterEndpoint(subscribed) => Some(EndpointRegistered(s, subscribed))
    case DeactivateEndpoint(id) => EndpointDeactivated(s, id)
    case Tick(elapsed) => Some(s.(clock := s.clock + elapsed))
    case SiiDecides(d, v) => Decided(s, d, v)
    case Claim(r) => ClaimedBy(s, r)
    case Load(p) => Loading(s, p)
    case Prepare(p, env) => Preparing(s, p, env)
    case ReadPrepared(p) => ReadingPrepared(s, p, true)
    case LoseRead(p) => ReadingPrepared(s, p, false)
    case Retry(p) => Retrying(s, p)
    case Inspect(p) => Inspected(s, p)
    case Decide(p) => Deciding(s, p)
    case Conclude(p) => Concluded(s, p)
    case Fence(p) => Fencing(s, p)
    case OpenDocument(p) => Opening(s, p)
    case AbortSend(p) => SendAborted(s, p)
    case Post(p, answer) => Posting(s, p, answer)
    case RecordTrack(p) => TrackRecorded(s, p)
    case FailRecord(p, written) => RecordFailed(s, p, written)
    case Submit(p) => Submitting(s, p)
    case Quarantine(p) => Quarantined(s, p)
    case Crash(p) => Crashing(s, p)
    case StartPoll(r) => PollStarted(s, r)
    case Ask(q) => Asked(s, q)
    case ReadRelevant(q) => RelevantRead(s, q)
    case WriteRelevant(q) => RelevantWritten(s, q)
    case Refresh(q) => Refreshed(s, q)
    case ApplyPoll(q) => PollApplied(s, q)
  }

  /** The pass an action belongs to. */
  function PassOf(a: Action): Option<nat> {
    match a
    case Load(p) => Some(p)
    case Prepare(p, _) => Some(p)
    case ReadPrepared(p) => Some(p)
    case LoseRead(p) => Some(p)
    case Retry(p) => Some(p)
    case Inspect(p) => Some(p)
    case Decide(p) => Some(p)
    case Conclude(p) => Some(p)
    case Fence(p) => Some(p)
    case OpenDocument(p) => Some(p)
    case AbortSend(p) => Some(p)
    case Post(p, _) => Some(p)
    case RecordTrack(p) => Some(p)
    case FailRecord(p, _) => Some(p)
    case Submit(p) => Some(p)
    case Quarantine(p) => Some(p)
    case Crash(p) => Some(p)
    case _ => None
  }

  predicate Holds(s: Sys, p: nat) {
    p < |s.passes| && s.passes[p].request < |s.books| && s.books[s.passes[p].request].lease == Some(p)
  }

  /** Lease discipline: a pass acts only while no later claim took its row. */
  predicate LeaseRespected(s: Sys, a: Action) {
    PassOf(a).Some? ==> Holds(s, PassOf(a).value)
  }

  /** The hypotheses under which the guarantees hold: lease discipline, and a
      read that fails after the prepare commit counts as a crash. */
  predicate Disciplined(s: Sys, a: Action) {
    LeaseRespected(s, a) && !a.LoseRead?
  }

  /** State after a list of actions, if each was enabled. */
  function Run(actions: seq<Action>): Option<Sys> {
    if actions == [] then Some(START)
    else
      match Run(actions[..|actions| - 1])
      case None => None
      case Some(s) => Next(s, actions[|actions| - 1])
  }

  /** A run all of whose steps were enabled and disciplined. */
  predicate DisciplinedRun(actions: seq<Action>) {
    actions == [] ||
    (DisciplinedRun(actions[..|actions| - 1])
     && Run(actions[..|actions| - 1]).Some?
     && Disciplined(Run(actions[..|actions| - 1]).value, actions[|actions| - 1])
     && Next(Run(actions[..|actions| - 1]).value, actions[|actions| - 1]).Some?)
  }
}
