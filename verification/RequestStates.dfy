/** Public states of a request, the allowed transitions, the mapping from
    document statuses, and the retry backoff. */
module RequestStates {
  import opened Wrappers

  datatype PublicState = Queued | Processing | Submitted | Accepted | Observed | Rejected | Failed | Cancelled

  datatype DteStatus = Borrador | Firmado | Enviado | Aceptado | Reparo | Rechazado | Anulado

  datatype HistoryEntry = HistoryEntry(state: PublicState, from: Option<PublicState>, at: int)

  function MapDteStatus(s: DteStatus): PublicState {
    match s
    case Borrador => Processing
    case Firmado => Processing
    case Enviado => Submitted
    case Aceptado => Accepted
    case Reparo => Observed
    case Rechazado => Rejected
    case Anulado => Cancelled
  }

  function AllowedTransitions(s: PublicState): set<PublicState> {
    match s
    case Queued => {Processing, Cancelled}
    case Processing => {Submitted, Failed, Cancelled}
    case Submitted => {Accepted, Observed, Rejected, Failed}
    case Accepted => {}
    case Observed => {Accepted, Rejected}
    case Rejected => {}
    case Failed => {Processing}
    case Cancelled => {}
  }

  predicate IsTransitionAllowed(from: PublicState, to: PublicState) {
    from == to || to in AllowedTransitions(from)
  }

  predicate Notifiable(s: PublicState) { s in {Submitted, Accepted, Observed, Rejected, Failed} }

  predicate Terminal(s: PublicState) { s in {Accepted, Rejected, Cancelled} }

  /** States that end the life of a request as the tax authority sees it. */
  predicate Resolved(s: PublicState) { s in {Accepted, Observed, Rejected, Cancelled} }

  const LOCK_TIMEOUT_MS := 600_000

  const RETRY_BACKOFF_MS: seq<int> := [60_000, 300_000, 900_000, 3_600_000, 21_600_000]

  /** Wait before the attempt that follows `attempts` failed ones. */
  function Backoff(attempts: nat): (wait: int)
    requires attempts >= 1
    ensures 60_000 <= wait <= 21_600_000
  {
    RETRY_BACKOFF_MS[if attempts - 1 < |RETRY_BACKOFF_MS| - 1 then attempts - 1 else |RETRY_BACKOFF_MS| - 1]
  }

  lemma BackoffNeverShrinks(a: nat, b: nat)
    requires 1 <= a <= b
    ensures Backoff(a) <= Backoff(b)
  {}

  /** A history is a path of the transition graph: each entry leaves the state the
      previous one reached, except that the claim's queued-to-processing change
      leaves no entry of its own. */
  ghost predicate IsPath(h: seq<HistoryEntry>) {
    && |h| >= 1 && h[0].state == Queued && h[0].from.None?
    && forall i :: 1 <= i < |h| ==>
         && h[i].from.Some? && h[i].state in AllowedTransitions(h[i].from.value)
         && (if h[i - 1].state == Queued then h[i].from.value == Processing else h[i].from.value == h[i - 1].state)
  }

  lemma PathExtends(h: seq<HistoryEntry>, e: HistoryEntry)
    requires IsPath(h) && e.from.Some? && e.state in AllowedTransitions(e.from.value)
    requires if h[|h| - 1].state == Queued then e.from.value == Processing else e.from.value == h[|h| - 1].state
    ensures IsPath(h + [e])
  {}

  /** The notifiable states of a history, in order. */
  function NotifiableStates(h: seq<HistoryEntry>): seq<PublicState> {
    if h == [] then []
    else NotifiableStates(h[..|h| - 1]) + (if Notifiable(h[|h| - 1].state) then [h[|h| - 1].state] else [])
  }

  lemma NotifiableAppend(h: seq<HistoryEntry>, e: HistoryEntry)
    ensures NotifiableStates(h + [e]) == NotifiableStates(h) + (if Notifiable(e.state) then [e.state] else [])
  {
    assert (h + [e])[..|h|] == h;
  }
}
