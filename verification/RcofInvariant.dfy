/** What every disciplined run of the receipts-report protocol keeps. */
module RcofInvariant {
  import opened Wrappers
  import opened RequestStates
  import opened RcofProtocol
  import Outbox
  import Protocol
  import ProtocolInvariant

  /** `revisable`: the authority may settle an objection. `single`: a recorded
      TrackID is never replaced by another. */
  datatype Mode = Mode(revisable: bool, single: bool)

  // ------------------------------------------------------------ what is known

  /** TrackID `source` of submission `d` was answered with `target`. */
  predicate Told(s: Sys, d: nat, source: Option<nat>, target: PublicState, m: Mode) {
    && Answer(target) && source.Some? && source.value < |s.verdicts| && d < |s.subs|
    && ProtocolInvariant.Explains(s.verdicts[source.value], target, m.revisable)
    && (m.single ==> s.subs[d].track == source)
  }

  /** A submission as it is or as it was read. */
  predicate Known(s: Sys, d: nat, sub: Submission, m: Mode) {
    && d < |s.subs| && sub.key == s.subs[d].key
    && (Answer(sub.status) || sub.status == Submitted || sub.status == PublicState.Failed)
    && (sub.track.Some? ==>
          && sub.track.value < |s.verdicts| && s.subs[d].track.Some?
          && (m.single ==> s.subs[d].track == sub.track))
    && (Answer(sub.status) ==> sub.track.Some? && Told(s, d, sub.source, sub.status, m))
  }

  /** The submission of a request. */
  predicate LinkOk(s: Sys, row: Row) {
    row.rcofId.Some? ==> row.rcofId.value < |s.subs| && s.subs[row.rcofId.value].key == row.key
  }

  // -------------------------------------------------------------- one request

  ghost predicate HistoryOk(row: Row) {
    && IsPath(row.history)
    && var last := row.history[|row.history| - 1].state;
       if row.state == Queued || row.state == Processing then |row.history| == 1 else last == row.state
  }

  /** A claimed copy differs from the row at most in the link. */
  predicate CopyFits(s: Sys, copy: Row, row: Row) {
    copy == row.(rcofId := copy.rcofId) && LinkOk(s, copy)
  }

  /** The latest pass of a request being processed. */
  predicate PcOk(s: Sys, pc: Pc, row: Row, m: Mode) {
    match pc
    case Claimed(copy) => CopyFits(s, copy, row)
    case Absent(copy) => CopyFits(s, copy, row)
    case Sending(copy, d) => CopyFits(s, copy, row) && d < |s.subs| && s.subs[d].key == row.key
    case Posted(copy, d, t) => CopyFits(s, copy, row) && d < |s.subs| && s.subs[d].key == row.key && t < |s.verdicts|
    case Executed(copy, d, sub) => CopyFits(s, copy, row) && Known(s, d, sub, m) && sub.key == row.key
    case Linked(copy, held, sub) =>
      CopyFits(s, copy, row) && held == row && row.rcofId.Some? && Known(s, row.rcofId.value, sub, m) && sub.track.Some?
    case Refused(copy) => CopyFits(s, copy, row)
    case Erred(copy) => CopyFits(s, copy, row)
    case Concluding(_, _, _) => false
    case Done => true
    case Crashed => true
  }

  predicate InFlight(state: PublicState) { state == Submitted || Answer(state) }

  /** A copy that differs from the row at most in how far it came. */
  predicate SameRequest(copy: Row, row: Row) { copy == row.(state := copy.state, history := copy.history) }

  /** The latest pass of a submitted request. */
  predicate EndOk(s: Sys, pc: Pc, row: Row, m: Mode) {
    match pc
    case Concluding(copy, target, source) =>
      row.rcofId.Some? && SameRequest(copy, row) && Told(s, row.rcofId.value, source, target, m)
    case Done => true
    case Crashed => true
    case _ => false
  }

  ghost predicate RowOk(s: Sys, row: Row, pc: Option<Pc>, settledBy: Option<nat>, m: Mode) {
    && HistoryOk(row) && LinkOk(s, row)
    && match row.state
       case Queued => pc.None?
       case Processing => pc.Some? && PcOk(s, pc.value, row, m)
       case Failed => pc == Some(Done)
       case Cancelled => false
       case _ =>
         && row.rcofId.Some? && pc.Some? && EndOk(s, pc.value, row, m)
         && (Answer(row.state) ==> Told(s, row.rcofId.value, settledBy, row.state, m))
  }

  predicate PollOk(s: Sys, poll: Poll, row: Row, m: Mode) {
    && InFlight(row.state) && row.rcofId.Some? && SameRequest(poll.copy, row)
    && var d := row.rcofId.value;
       match poll.pc
       case PollStart => true
       case Asking(e, sub) => e == d && Known(s, d, sub, m)
       case Writing(e, sub, t, status) =>
         e == d && Known(s, d, sub, m) && Told(s, d, Some(t), status, m) && s.subs[d].track.Some?
       case Mapped(target, source) => Told(s, d, source, target, m)
       case PollDone => true
  }

  // --------------------------------------------------------- the whole system

  function LatestPc(s: Sys, r: nat): Option<Pc> {
    if r < |s.leases| && s.leases[r].Some? && s.leases[r].value < |s.passes| then Some(s.passes[s.leases[r].value].pc)
    else None
  }

  ghost predicate Shape(s: Sys) {
    && |s.leases| == |s.rows| == |s.settledBy|
    && (forall p :: 0 <= p < |s.passes| ==> s.passes[p].request < |s.rows|)
    && (forall r :: 0 <= r < |s.leases| ==> s.leases[r].Some? ==>
          s.leases[r].value < |s.passes| && s.passes[s.leases[r].value].request == r)
    && (forall q :: 0 <= q < |s.polls| ==> s.polls[q].request < |s.rows|)
  }

  ghost predicate RequestOk(s: Sys, r: nat, m: Mode)
    requires r < |s.rows| && r < |s.settledBy|
  {
    RowOk(s, s.rows[r], LatestPc(s, r), s.settledBy[r], m)
  }

  ghost predicate Inv(s: Sys, m: Mode) {
    && Shape(s)
    && (forall d: nat :: d < |s.subs| ==> Known(s, d, s.subs[d], m))
    && (forall r: nat :: r < |s.rows| ==> RequestOk(s, r, m))
    && (forall q: nat :: q < |s.polls| ==> PollOk(s, s.polls[q], s.rows[s.polls[q].request], m))
  }

  // -------------------------------------------------------- knowledge is kept

  predicate VerdictStays(old_: Protocol.SiiVerdict, new_: Protocol.SiiVerdict, m: Mode) {
    new_ == old_ || (Protocol.MayDecide(old_, new_) && (m.revisable || old_ != Protocol.SiiReparo))
  }

  /** Submissions and verdicts are only added or, where the mode allows, changed. */
  ghost predicate Grows(s: Sys, s': Sys, m: Mode) {
    && |s.subs| <= |s'.subs| && |s.verdicts| <= |s'.verdicts|
    && (forall d :: 0 <= d < |s.subs| ==>
        s'.subs[d].key == s.subs[d].key && (m.single && s.subs[d].track.Some? ==> s'.subs[d].track == s.subs[d].track))
    && (forall d :: 0 <= d < |s.subs| ==> s.subs[d].track.Some? ==> s'.subs[d].track.Some?)
    && (forall t :: 0 <= t < |s.verdicts| ==> VerdictStays(s.verdicts[t], s'.verdicts[t], m))
  }

  lemma ToldStays(s: Sys, s': Sys, d: nat, source: Option<nat>, target: PublicState, m: Mode)
    requires Grows(s, s', m) && Told(s, d, source, target, m)
    ensures Told(s', d, source, target, m)
  {
    assert VerdictStays(s.verdicts[source.value], s'.verdicts[source.value], m);
  }

  lemma KnownStays(s: Sys, s': Sys, d: nat, sub: Submission, m: Mode)
    requires Grows(s, s', m) && Known(s, d, sub, m)
    ensures Known(s', d, sub, m)
  {
    if Answer(sub.status) { ToldStays(s, s', d, sub.source, sub.status, m); }
  }

  lemma PcStays(s: Sys, s': Sys, pc: Pc, row: Row, m: Mode)
    requires Grows(s, s', m)
    ensures PcOk(s, pc, row, m) ==> PcOk(s', pc, row, m)
    ensures EndOk(s, pc, row, m) ==> EndOk(s', pc, row, m)
  {
    if PcOk(s, pc, row, m) && pc.Executed? { KnownStays(s, s', pc.d, pc.sub, m); }
    if PcOk(s, pc, row, m) && pc.Linked? { KnownStays(s, s', row.rcofId.value, pc.sub, m); }
    if EndOk(s, pc, row, m) && pc.Concluding? { ToldStays(s, s', row.rcofId.value, pc.source, pc.target, m); }
  }

  lemma RowStays(s: Sys, s': Sys, row: Row, pc: Option<Pc>, settledBy: Option<nat>, m: Mode)
    requires Grows(s, s', m) && RowOk(s, row, pc, settledBy, m)
    ensures RowOk(s', row, pc, settledBy, m)
  {
    if pc.Some? { PcStays(s, s', pc.value, row, m); }
    if Answer(row.state) { ToldStays(s, s', row.rcofId.value, settledBy, row.state, m); }
  }

  lemma PollStays(s: Sys, s': Sys, poll: Poll, row: Row, m: Mode)
    requires Grows(s, s', m) && PollOk(s, poll, row, m)
    ensures PollOk(s', poll, row, m)
  {
    var d := row.rcofId.value;
    match poll.pc
    case PollStart =>
    case Asking(_, sub) => KnownStays(s, s', d, sub, m);
    case Writing(_, sub, t, status) => KnownStays(s, s', d, sub, m); ToldStays(s, s', d, Some(t), status, m);
    case Mapped(target, source) => ToldStays(s, s', d, source, target, m);
    case PollDone =>
  }

  // ------------------------------------------------------------ local changes

  /** Only request `r`, its latest pass and its polls may differ, and knowledge grew. */
  ghost predicate Elsewhere(s: Sys, s': Sys, r: nat, m: Mode) {
    && Shape(s) && Shape(s') && Grows(s, s', m) && |s'.rows| == |s.rows| && |s'.polls| >= |s.polls|
    && (forall k: nat :: k < |s.rows| && k != r ==>
          s'.rows[k] == s.rows[k] && s'.settledBy[k] == s.settledBy[k] && LatestPc(s', k) == LatestPc(s, k))
    && (forall q: nat :: q < |s.polls| ==> s'.polls[q].request == s.polls[q].request)
    && (forall q: nat :: q < |s.polls| && s.polls[q].request != r ==> s'.polls[q] == s.polls[q])
    && (forall q: nat :: |s.polls| <= q < |s'.polls| ==> s'.polls[q].request == r)
  }

  /** A step is sound as soon as its own request, that request's polls and the submissions are. */
  lemma Rebuild(s: Sys, s': Sys, r: nat, m: Mode)
    requires Inv(s, m) && Elsewhere(s, s', r, m) && r < |s.rows|
    requires RequestOk(s', r, m)
    requires forall d: nat :: d < |s'.subs| ==> Known(s', d, s'.subs[d], m)
    requires forall q: nat :: q < |s'.polls| && s'.polls[q].request == r ==> PollOk(s', s'.polls[q], s'.rows[r], m)
    ensures Inv(s', m)
  {
    forall k: nat | k < |s'.rows| ensures RequestOk(s', k, m) {
      if k != r {
        assert RequestOk(s, k, m);
        RowStays(s, s', s.rows[k], LatestPc(s, k), s.settledBy[k], m);
      }
    }
    forall q: nat | q < |s'.polls| ensures PollOk(s', s'.polls[q], s'.rows[s'.polls[q].request], m) {
      if s'.polls[q].request != r {
        assert q < |s.polls| && PollOk(s, s.polls[q], s.rows[s.polls[q].request], m);
        PollStays(s, s', s.polls[q], s.rows[s.polls[q].request], m);
      }
    }
  }

  /** Unchanged submissions stay known. */
  lemma SubsStay(s: Sys, s': Sys, m: Mode)
    requires Inv(s, m) && Grows(s, s', m) && s'.subs == s.subs
    ensures forall d: nat :: d < |s'.subs| ==> Known(s', d, s'.subs[d], m)
  {
    forall d: nat | d < |s'.subs| ensures Known(s', d, s'.subs[d], m) { KnownStays(s, s', d, s.subs[d], m); }
  }

  /** One submission changed or added. */
  lemma SubChanged(s: Sys, s': Sys, d: nat, m: Mode)
    requires Inv(s, m) && Grows(s, s', m) && d < |s'.subs| && d <= |s.subs|
    requires s'.subs == if d < |s.subs| then s.subs[d := s'.subs[d]] else s.subs + [s'.subs[d]]
    requires Known(s', d, s'.subs[d], m)
    ensures forall e: nat :: e < |s'.subs| ==> Known(s', e, s'.subs[e], m)
  {
    forall e: nat | e < |s'.subs| ensures Known(s', e, s'.subs[e], m) {
      if e != d { KnownStays(s, s', e, s.subs[e], m); }
    }
  }
}
