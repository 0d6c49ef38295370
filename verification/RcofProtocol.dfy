/** The daily receipts report (RCOF) as a step relation: worker passes that find,
    build or resend a submission, and pollers. Requests of the same date and
    sequence share one submission row, and nothing fences a send. */
module RcofProtocol {
  import opened Wrappers
  import opened RequestStates
  import EmissionDb
  import Outbox
  import Protocol

  datatype Key = Key(date: string, sequence: int)

  datatype Row = Row(key: Key, state: PublicState, rcofId: Option<nat>, attempts: nat, maxAttempts: nat,
                     nextAttemptAt: int, history: seq<HistoryEntry>)

  /** `source`, bookkeeping outside the code, is the TrackID whose verdict gave the status. */
  datatype Submission = Submission(key: Key, status: PublicState, track: Option<nat>, source: Option<nat>)

  /** Where a worker pass stands; `copy` is the row as it was claimed. */
  datatype Pc =
    | Claimed(copy: Row)
    | Absent(copy: Row)
    | Sending(copy: Row, d: nat)
    | Posted(copy: Row, d: nat, track: nat)
    | Executed(copy: Row, d: nat, sub: Submission)
    | Linked(copy: Row, held: Row, sub: Submission)
    | Refused(copy: Row)
    | Erred(copy: Row)
    | Concluding(copy: Row, target: PublicState, source: Option<nat>)
    | Done
    | Crashed

  datatype Pass = Pass(request: nat, pc: Pc)

  datatype PollPc =
    | PollStart
    | Asking(d: nat, sub: Submission)
    | Writing(d: nat, sub: Submission, track: nat, status: PublicState)
    | Mapped(target: PublicState, source: Option<nat>)
    | PollDone

  datatype Poll = Poll(request: nat, copy: Row, pc: PollPc)

  /** A rejected transition: the state it met and the TrackID that gave it, the state it brought and its TrackID. */
  datatype Raise = Raise(from: PublicState, settledBy: Option<nat>, to: PublicState, source: Option<nat>)

  /** `leases`, `settledBy`, `verdicts` and `raises` are kept outside the code: each
      request's latest pass and the TrackID that settled it, the authority's verdict
      for each TrackID, and every rejected transition. */
  datatype Sys = Sys(rows: seq<Row>, subs: seq<Submission>, outbox: Outbox.Box, clock: int,
                     passes: seq<Pass>, polls: seq<Poll>, leases: seq<Option<nat>>, settledBy: seq<Option<nat>>,
                     verdicts: seq<Protocol.SiiVerdict>, raises: seq<Raise>)

  datatype Action =
    | Enqueue(key: Key)
    | RegisterEndpoint(subscribed: set<PublicState>)
    | DeactivateEndpoint(endpoint: nat)
    | Tick(elapsed: nat)
    | SiiDecides(t: nat, verdict: Protocol.SiiVerdict)
    | Claim(r: nat)
    | Lookup(p: nat)
    | Create(p: nat)
    | Refuse(p: nat)
    | Fault(p: nat)
    | Post(p: nat)
    | FailPost(p: nat, written: bool)
    | RecordTrack(p: nat)
    | Link(p: nat)
    | ApplySubmitted(p: nat)
    | Conclude(p: nat)
    | Retry(p: nat)
    | Fail(p: nat)
    | Crash(p: nat)
    | StartPoll(r: nat)
    | ReadSubmission(q: nat)
    | Ask(q: nat)
    | NoAnswer(q: nat)
    | WriteStatus(q: nat)
    | ApplyPoll(q: nat)

  const START: Sys := Sys([], [], Outbox.Box([], [], []), 0, [], [], [], [], [], [])

  // -------------------------------------------------------------- environment

  function Enqueued(s: Sys, key: Key): Sys {
    s.(rows := s.rows + [Row(key, Queued, None, 0, EmissionDb.MAX_ATTEMPTS, s.clock,
                             [HistoryEntry(Queued, None, s.clock)])],
       leases := s.leases + [None], settledBy := s.settledBy + [None])
  }

  function EndpointDeactivated(s: Sys, e: nat): Option<Sys> {
    if e >= |s.outbox.endpoints| then None
    else Some(s.(outbox := s.outbox.(endpoints := s.outbox.endpoints[e := s.outbox.endpoints[e].(active := false)])))
  }

  function Decided(s: Sys, t: nat, v: Protocol.SiiVerdict): Option<Sys> {
    if t < |s.verdicts| && Protocol.MayDecide(s.verdicts[t], v) then Some(s.(verdicts := s.verdicts[t := v])) else None
  }

  // -------------------------------------------------------------- worker pass

  predicate PassAt(s: Sys, p: nat) {
    && p < |s.passes| && s.passes[p].request < |s.rows| && s.passes[p].request < |s.settledBy|
  }

  function Moved(s: Sys, p: nat, pc: Pc): Sys
    requires p < |s.passes|
  {
    s.(passes := s.passes[p := s.passes[p].(pc := pc)])
  }

  function ClaimedBy(s: Sys, r: nat): Option<Sys> {
    if r < |s.rows| && r < |s.leases|
       && (s.rows[r].state == Queued || (s.rows[r].state == Processing && s.rows[r].nextAttemptAt <= s.clock)) then
      var row := s.rows[r].(state := Processing, nextAttemptAt := s.clock + LOCK_TIMEOUT_MS);
      Some(s.(rows := s.rows[r := row], passes := s.passes + [Pass(r, Claimed(row))],
              leases := s.leases[r := Some(|s.passes|)]))
    else None
  }

  /** Position of the submission of a date and sequence, or the length. */
  function Find(subs: seq<Submission>, key: Key): (d: nat)
    ensures d <= |subs| && (d < |subs| ==> subs[d].key == key)
    ensures forall i :: 0 <= i < d ==> subs[i].key != key
  {
    if subs == [] then 0 else if subs[0].key == key then 0 else 1 + Find(subs[1..], key)
  }

  /** States a submission takes from a verdict. */
  predicate Answer(state: PublicState) { state in {Accepted, Observed, Rejected} }

  /** The submission of the request's date and sequence: taken as it is, resent, or to be built. */
  function LookedUp(s: Sys, p: nat): Option<Sys> {
    if PassAt(s, p) && s.passes[p].pc.Claimed? then
      var copy := s.passes[p].pc.copy;
      var d := Find(s.subs, copy.key);
      Some(Moved(s, p, if d == |s.subs| then Absent(copy)
                       else if s.subs[d].track.Some? || Answer(s.subs[d].status) then Executed(copy, d, s.subs[d])
                       else Sending(copy, d)))
    else None
  }

  /** Stored before it is sent; the unique index refuses a second row of the same date and sequence. */
  function Created(s: Sys, p: nat): Option<Sys> {
    if PassAt(s, p) && s.passes[p].pc.Absent? then
      var copy := s.passes[p].pc.copy;
      if Find(s.subs, copy.key) < |s.subs| then Some(Moved(s, p, Erred(copy)))
      else Some(Moved(s.(subs := s.subs + [Submission(copy.key, Submitted, None, None)]), p, Sending(copy, |s.subs|)))
    else None
  }

  /** A malformed date, no receipts that day, or no signature: refused for good. */
  function Refusing(s: Sys, p: nat): Option<Sys> {
    if PassAt(s, p) && (s.passes[p].pc.Claimed? || s.passes[p].pc.Absent?) then
      Some(Moved(s, p, Refused(s.passes[p].pc.copy)))
    else None
  }

  /** Anything else that throws inside the pass. */
  function Faulted(s: Sys, p: nat): Option<Sys> {
    if PassAt(s, p)
      && (s.passes[p].pc.Claimed? || s.passes[p].pc.Absent? || s.passes[p].pc.Executed? || s.passes[p].pc.Linked?) then
      Some(Moved(s, p, Erred(s.passes[p].pc.copy)))
    else None
  }

  /** Each post gets a TrackID of its own. */
  function Posting(s: Sys, p: nat): Option<Sys> {
    if PassAt(s, p) && s.passes[p].pc.Sending? then
      Some(Moved(s.(verdicts := s.verdicts + [Protocol.SiiPending]), p,
                 Posted(s.passes[p].pc.copy, s.passes[p].pc.d, |s.verdicts|)))
    else None
  }

  predicate SubAt(s: Sys, p: nat) {
    PassAt(s, p) && (s.passes[p].pc.Sending? || s.passes[p].pc.Posted?) && s.passes[p].pc.d < |s.subs|
  }

  /** The send or the write after it failed; the submission is marked failed, if that write succeeds. */
  function PostFailed(s: Sys, p: nat, written: bool): Option<Sys> {
    if SubAt(s, p) then
      var d := s.passes[p].pc.d;
      Some(Moved(if written then s.(subs := s.subs[d := s.subs[d].(status := PublicState.Failed)]) else s, p,
                 Erred(s.passes[p].pc.copy)))
    else None
  }

  function TrackRecorded(s: Sys, p: nat): Option<Sys> {
    if SubAt(s, p) && s.passes[p].pc.Posted? then
      var d := s.passes[p].pc.d;
      var sub := s.subs[d].(track := Some(s.passes[p].pc.track), status := Submitted, source := None);
      Some(Moved(s.(subs := s.subs[d := sub]), p, Executed(s.passes[p].pc.copy, d, sub)))
    else None
  }

  /** Only the link is written; the row keeps its other columns. */
  function Linking(s: Sys, p: nat): Option<Sys> {
    if PassAt(s, p) && s.passes[p].pc.Executed? then
      var r, copy, sub := s.passes[p].request, s.passes[p].pc.copy, s.passes[p].pc.sub;
      var held := s.rows[r].(rcofId := Some(s.passes[p].pc.d));
      Some(Moved(s.(rows := s.rows[r := held]), p, if sub.track.None? then Erred(copy) else Linked(copy, held, sub)))
    else None
  }

  predicate Rejects(s: Sys, r: nat, target: PublicState)
    requires r < |s.rows|
  {
    !IsTransitionAllowed(s.rows[r].state, target)
  }

  function Entry(s: Sys, r: nat, target: PublicState): HistoryEntry
    requires r < |s.rows|
  {
    HistoryEntry(target, Some(s.rows[r].state), s.clock)
  }

  /** `applyState` with the worker's or poller's copy; a rejected transition is logged and changes nothing. */
  function Apply(s: Sys, r: nat, copy: Row, target: PublicState, source: Option<nat>): Sys
    requires r < |s.rows| && r < |s.settledBy|
  {
    if Rejects(s, r, target) then s.(raises := s.raises + [Raise(s.rows[r].state, s.settledBy[r], target, source)])
    else if s.rows[r].state == target then s
    else s.(rows := s.rows[r := copy.(state := target, history := s.rows[r].history + [Entry(s, r, target)])],
            settledBy := if Answer(target) then s.settledBy[r := source] else s.settledBy,
            outbox := Outbox.Told(s.outbox, r, Entry(s, r, target)))
  }

  /** A rejected transition inside the pass's guarded part has status 422, and so refuses the request. */
  function Submitting(s: Sys, p: nat): Option<Sys> {
    if PassAt(s, p) && s.passes[p].pc.Linked? then
      var r, copy, sub := s.passes[p].request, s.passes[p].pc.copy, s.passes[p].pc.sub;
      var s' := Apply(s, r, s.passes[p].pc.held, Submitted, None);
      Some(Moved(s', p, if Rejects(s, r, Submitted) then Refused(copy)
                        else if Answer(sub.status) then Concluding(s'.rows[r], sub.status, sub.source)
                        else Done))
    else None
  }

  /** A last `applyState`, outside any guard: a rejected transition ends the pass. */
  function Closing(s: Sys, p: nat, copy: Row, target: PublicState, source: Option<nat>): Sys
    requires PassAt(s, p)
  {
    var r := s.passes[p].request;
    Moved(Apply(s, r, copy, target, source), p, if Rejects(s, r, target) then Crashed else Done)
  }

  function Concluded(s: Sys, p: nat): Option<Sys> {
    if PassAt(s, p) && s.passes[p].pc.Concluding? then
      Some(Closing(s, p, s.passes[p].pc.copy, s.passes[p].pc.target, s.passes[p].pc.source))
    else None
  }

  function EffectiveMax(row: Row): nat { if row.maxAttempts == 0 then 5 else row.maxAttempts }

  /** The whole claimed copy is written back, with one attempt more. */
  function Retrying(s: Sys, p: nat): Option<Sys> {
    if PassAt(s, p) && s.passes[p].pc.Erred? then
      var r := s.passes[p].request;
      var next := s.passes[p].pc.copy.(attempts := s.passes[p].pc.copy.attempts + 1);
      if next.attempts >= EffectiveMax(next) then Some(Closing(s, p, next, PublicState.Failed, None))
      else Some(Moved(s.(rows := s.rows[r := next.(nextAttemptAt := s.clock + Backoff(next.attempts))]), p, Done))
    else None
  }

  function Failing(s: Sys, p: nat): Option<Sys> {
    if PassAt(s, p) && s.passes[p].pc.Refused? then Some(Closing(s, p, s.passes[p].pc.copy, PublicState.Failed, None))
    else None
  }

  function Crashing(s: Sys, p: nat): Option<Sys> {
    if PassAt(s, p) && !s.passes[p].pc.Done? then Some(Moved(s, p, Crashed)) else None
  }

  // ----------------------------------------------------------------- polling

  predicate PollAt(s: Sys, q: nat) {
    && q < |s.polls| && s.polls[q].request < |s.rows| && s.polls[q].request < |s.settledBy|
  }

  function PollMoved(s: Sys, q: nat, pc: PollPc): Sys
    requires q < |s.polls|
  {
    s.(polls := s.polls[q := s.polls[q].(pc := pc)])
  }

  function PollStarted(s: Sys, r: nat): Option<Sys> {
    if r < |s.rows| && (s.rows[r].state == Submitted || s.rows[r].state == Observed) && s.rows[r].rcofId.Some? then
      Some(s.(polls := s.polls + [Poll(r, s.rows[r], PollStart)]))
    else None
  }

  /** What a poll does with a submission it takes as it is. */
  function Taken(sub: Submission): PollPc {
    if Answer(sub.status) then Mapped(sub.status, sub.source) else PollDone
  }

  function SubmissionRead(s: Sys, q: nat): Option<Sys> {
    if PollAt(s, q) && s.polls[q].pc.PollStart? && s.polls[q].copy.rcofId.Some? then
      var d := s.polls[q].copy.rcofId.value;
      Some(PollMoved(s, q, if d >= |s.subs| then PollDone
                           else if (s.subs[d].status == Submitted || s.subs[d].status == Observed)
                                   && s.subs[d].track.Some?
                           then Asking(d, s.subs[d])
                           else Taken(s.subs[d])))
    else None
  }

  function StatusFor(v: Protocol.SiiVerdict, status: PublicState): PublicState {
    match v
    case SiiPending => status
    case SiiReparo => Observed
    case SiiAceptado => Accepted
    case SiiRechazado => Rejected
  }

  function Asked(s: Sys, q: nat): Option<Sys> {
    if PollAt(s, q) && s.polls[q].pc.Asking? && s.polls[q].pc.sub.track.Some?
      && s.polls[q].pc.sub.track.value < |s.verdicts| then
      var sub := s.polls[q].pc.sub;
      var status := StatusFor(s.verdicts[sub.track.value], sub.status);
      Some(PollMoved(s, q, if status == sub.status then Taken(sub)
                           else Writing(s.polls[q].pc.d, sub, sub.track.value, status)))
    else None
  }

  /** The query or the write failed: the submission is taken as it was read. */
  function Unanswered(s: Sys, q: nat): Option<Sys> {
    if PollAt(s, q) && (s.polls[q].pc.Asking? || s.polls[q].pc.Writing?) then
      Some(PollMoved(s, q, Taken(s.polls[q].pc.sub)))
    else None
  }

  function StatusWritten(s: Sys, q: nat): Option<Sys> {
    if PollAt(s, q) && s.polls[q].pc.Writing? && s.polls[q].pc.d < |s.subs| then
      var d, track, status := s.polls[q].pc.d, s.polls[q].pc.track, s.polls[q].pc.status;
      Some(PollMoved(s.(subs := s.subs[d := s.subs[d].(status := status, source := Some(track))]), q,
                     Mapped(status, Some(track))))
    else None
  }

  function PollApplied(s: Sys, q: nat): Option<Sys> {
    if PollAt(s, q) && s.polls[q].pc.Mapped? then
      Some(PollMoved(Apply(s, s.polls[q].request, s.polls[q].copy, s.polls[q].pc.target, s.polls[q].pc.source), q,
                     PollDone))
    else None
  }

  // -------------------------------------------------------------------- runs

  function Next(s: Sys, a: Action): Option<Sys> {
    match a
    case Enqueue(key) => Some(Enqueued(s, key))
    case RegisterEndpoint(subscribed) =>
      Some(s.(outbox := s.outbox.(endpoints := s.outbox.endpoints + [Outbox.Endpoint(true, subscribed)])))
    case DeactivateEndpoint(e) => EndpointDeactivated(s, e)
    case Tick(elapsed) => Some(s.(clock := s.clock + elapsed))
    case SiiDecides(t, v) => Decided(s, t, v)
    case Claim(r) => ClaimedBy(s, r)
    case Lookup(p) => LookedUp(s, p)
    case Create(p) => Created(s, p)
    case Refuse(p) => Refusing(s, p)
    case Fault(p) => Faulted(s, p)
    case Post(p) => Posting(s, p)
    case FailPost(p, written) => PostFailed(s, p, written)
    case RecordTrack(p) => TrackRecorded(s, p)
    case Link(p) => Linking(s, p)
    case ApplySubmitted(p) => Submitting(s, p)
    case Conclude(p) => Concluded(s, p)
    case Retry(p) => Retrying(s, p)
    case Fail(p) => Failing(s, p)
    case Crash(p) => Crashing(s, p)
    case StartPoll(r) => PollStarted(s, r)
    case ReadSubmission(q) => SubmissionRead(s, q)
    case Ask(q) => Asked(s, q)
    case NoAnswer(q) => Unanswered(s, q)
    case WriteStatus(q) => StatusWritten(s, q)
    case ApplyPoll(q) => PollApplied(s, q)
  }

  /** The pass an action belongs to. */
  function PassOf(a: Action): Option<nat> {
    if a.Lookup? || a.Create? || a.Refuse? || a.Fault? || a.Post? || a.FailPost? || a.RecordTrack? || a.Link?
       || a.ApplySubmitted? || a.Conclude? || a.Retry? || a.Fail? || a.Crash? then Some(a.p)
    else None
  }

  predicate Holds(s: Sys, p: nat) {
    p < |s.passes| && s.passes[p].request < |s.leases| && s.leases[s.passes[p].request] == Some(p)
  }

  /** Lease discipline: a pass acts only while no later claim took its row. */
  predicate Disciplined(s: Sys, a: Action) { PassOf(a).Some? ==> Holds(s, PassOf(a).value) }

  function Run(actions: seq<Action>): Option<Sys> {
    if actions == [] then Some(START)
    else
      match Run(actions[..|actions| - 1])
      case None => None
      case Some(s) => Next(s, actions[|actions| - 1])
  }

  predicate DisciplinedRun(actions: seq<Action>) {
    actions == [] ||
    (DisciplinedRun(actions[..|actions| - 1])
     && Run(actions[..|actions| - 1]).Some?
     && Disciplined(Run(actions[..|actions| - 1]).value, actions[|actions| - 1])
     && Next(Run(actions[..|actions| - 1]).value, actions[|actions| - 1]).Some?)
  }
}
