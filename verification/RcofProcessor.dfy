/** The worker's processing of one claimed report request and the poll of one
    submission, statement by statement on the tables. */
module RcofProcessor {
  import opened Wrappers
  import opened RequestStates
  import opened RcofProtocol
  import Outbox
  import Protocol

  datatype Tab = Tab(rows: seq<Row>, subs: seq<Submission>, box: Outbox.Box)

  /** The report of a day: built, refused for good, or interrupted by an exception. */
  datatype Day = Fine | NoReport | Broken

  /** The send: no TrackID came back (after a post or not), and the failure was
      written down or not; or it was answered. */
  datatype Sent = Lost(posted: bool, written: bool) | Answered

  /** What the outside world does during a pass. */
  datatype Env = Env(dateOk: bool, lookupOk: bool, day: Day, sent: Sent, linkOk: bool, submitOk: bool)

  // -------------------------------------------------------------- specification

  function ApplyTab(t: Tab, r: nat, copy: Row, target: PublicState, now: int): Tab
    requires r < |t.rows|
  {
    if t.rows[r].state == target || !IsTransitionAllowed(t.rows[r].state, target) then t
    else
      var e := HistoryEntry(target, Some(t.rows[r].state), now);
      t.(rows := t.rows[r := copy.(state := target, history := t.rows[r].history + [e])],
         box := Outbox.Told(t.box, r, e))
  }

  function RetryTab(t: Tab, r: nat, copy: Row, now: int): Tab
    requires r < |t.rows|
  {
    var next := copy.(attempts := copy.attempts + 1);
    if next.attempts >= EffectiveMax(next) then ApplyTab(t, r, next, PublicState.Failed, now)
    else t.(rows := t.rows[r := next.(nextAttemptAt := now + Backoff(next.attempts))])
  }

  function SubmittedTab(t: Tab, r: nat, copy: Row, held: Row, sub: Submission, now: int, env: Env): Tab
    requires r < |t.rows|
  {
    if !env.submitOk then RetryTab(t, r, copy, now)
    else if !IsTransitionAllowed(t.rows[r].state, Submitted) then ApplyTab(t, r, copy, PublicState.Failed, now)
    else
      var t' := ApplyTab(t, r, held, Submitted, now);
      if Answer(sub.status) then ApplyTab(t', r, t'.rows[r], sub.status, now) else t'
  }

  function LinkedTab(t: Tab, r: nat, copy: Row, d: nat, sub: Submission, now: int, env: Env): Tab
    requires r < |t.rows|
  {
    if !env.linkOk then RetryTab(t, r, copy, now)
    else
      var held := t.rows[r].(rcofId := Some(d));
      var t' := t.(rows := t.rows[r := held]);
      if sub.track.None? then RetryTab(t', r, copy, now) else SubmittedTab(t', r, copy, held, sub, now, env)
  }

  function SentTab(t: Tab, r: nat, copy: Row, d: nat, track: nat, now: int, env: Env): Tab
    requires r < |t.rows| && d < |t.subs|
  {
    match env.sent
    case Lost(_, written) =>
      RetryTab(if written then t.(subs := t.subs[d := t.subs[d].(status := PublicState.Failed)]) else t, r, copy, now)
    case Answered =>
      var sub := t.subs[d].(track := Some(track), status := Submitted, source := None);
      LinkedTab(t.(subs := t.subs[d := sub]), r, copy, d, sub, now, env)
  }

  function BuiltTab(t: Tab, r: nat, copy: Row, track: nat, now: int, env: Env): Tab
    requires r < |t.rows|
  {
    match env.day
    case NoReport => ApplyTab(t, r, copy, PublicState.Failed, now)
    case Broken => RetryTab(t, r, copy, now)
    case Fine =>
      if Find(t.subs, copy.key) < |t.subs| then RetryTab(t, r, copy, now)
      else SentTab(t.(subs := t.subs + [Submission(copy.key, Submitted, None, None)]), r, copy, |t.subs|, track, now,
                   env)
  }

  /** The tables after one uninterrupted pass; a post gets TrackID `track`. */
  function ProcessedTab(t: Tab, r: nat, copy: Row, track: nat, now: int, env: Env): Tab
    requires r < |t.rows|
  {
    if !env.dateOk then ApplyTab(t, r, copy, PublicState.Failed, now)
    else if !env.lookupOk then RetryTab(t, r, copy, now)
    else
      var d := Find(t.subs, copy.key);
      if d == |t.subs| then BuiltTab(t, r, copy, track, now, env)
      else if t.subs[d].track.Some? || Answer(t.subs[d].status) then LinkedTab(t, r, copy, d, t.subs[d], now, env)
      else SentTab(t, r, copy, d, track, now, env)
  }

  // -------------------------------------------------------------------- methods

  datatype Failure = Invalid | Exception

  class RcofTables {
    var rows: seq<Row>
    var subs: seq<Submission>
    const outbox: Outbox.OutboxTables

    constructor ()
      ensures View() == Tab([], [], Outbox.Box([], [], [])) && fresh(outbox)
    {
      rows, subs := [], [];
      outbox := new Outbox.OutboxTables();
    }

    ghost function View(): Tab
      reads this, outbox
    {
      Tab(rows, subs, outbox.Contents())
    }

    method ApplyState(r: nat, copy: Row, target: PublicState, now: int) returns (rejected: bool)
      requires r < |rows|
      modifies this, outbox
      ensures View() == ApplyTab(old(View()), r, copy, target, now)
      ensures rejected <==> !IsTransitionAllowed(old(rows)[r].state, target)
    {
      var persisted := rows[r];
      if persisted.state == target {
        return false;
      }
      if !IsTransitionAllowed(persisted.state, target) {
        return true;
      }
      rows := rows[r := copy.(state := target,
                              history := persisted.history + [HistoryEntry(target, Some(persisted.state), now)])];
      if Notifiable(target) {
        outbox.EmitEvent(r, target, now);
      }
      rejected := false;
    }

    method ScheduleRetry(r: nat, copy: Row, now: int)
      requires r < |rows|
      modifies this, outbox
      ensures View() == RetryTab(old(View()), r, copy, now)
    {
      var request := copy.(attempts := copy.attempts + 1);
      if request.attempts >= EffectiveMax(request) {
        var _ := ApplyState(r, request, PublicState.Failed, now);
        return;
      }
      rows := rows[r := request.(nextAttemptAt := now + Backoff(request.attempts))];
    }

    method FindSubmission(key: Key) returns (found: Option<nat>)
      ensures found == if Find(subs, key) < |subs| then Some(Find(subs, key)) else None
    {
      var d := 0;
      while d < |subs|
        invariant 0 <= d <= |subs|
        invariant forall i :: 0 <= i < d ==> subs[i].key != key
      {
        if subs[d].key == key {
          return Some(d);
        }
        d := d + 1;
      }
      found := None;
    }

    /** Sends a stored submission and records its TrackID, or marks it failed. */
    method Transmit(d: nat, track: nat, sent: Sent) returns (ok: bool)
      requires d < |subs|
      modifies this
      ensures ok <==> sent.Answered?
      ensures rows == old(rows)
      ensures subs == if sent.Answered?
                      then old(subs)[d := old(subs)[d].(track := Some(track), status := Submitted, source := None)]
                      else if sent.written then old(subs)[d := old(subs)[d].(status := PublicState.Failed)]
                      else old(subs)
    {
      ok := sent.Answered?;
      if ok {
        subs := subs[d := subs[d].(track := Some(track), status := Submitted, source := None)];
      } else if sent.written {
        subs := subs[d := subs[d].(status := PublicState.Failed)];
      }
    }

    /** Finds the submission of the day, or builds and stores it, and sends it unless it was sent. */
    method Execute(key: Key, track: nat, env: Env) returns (res: Result<nat, Failure>)
      modifies this
      ensures rows == old(rows)
      ensures match ExecutedSubs(old(subs), key, track, env)
              case Ok((d, s)) => res == Ok(d) && subs == s && d < |s|
              case Err((e, s)) => res == Err(e) && subs == s
    {
      if !env.dateOk {
        return Err(Invalid);
      }
      if !env.lookupOk {
        return Err(Exception);
      }
      var existing := FindSubmission(key);
      var d: nat;
      if existing.Some? {
        d := existing.value;
        if subs[d].track.Some? || Answer(subs[d].status) {
          return Ok(d);
        }
      } else {
        if env.day == NoReport {
          return Err(Invalid);
        }
        if env.day == Broken {
          return Err(Exception);
        }
        subs := subs + [Submission(key, Submitted, None, None)];
        d := |subs| - 1;
      }
      var ok := Transmit(d, track, env.sent);
      res := if ok then Ok(d) else Err(Exception);
    }

    /** One pass over a claimed request; `fresh_` is the row as it was claimed. */
    method ProcessRcof(r: nat, fresh_: Row, track: nat, now: int, env: Env)
      requires r < |rows|
      modifies this, outbox
      ensures View() == ProcessedTab(old(View()), r, fresh_, track, now, env)
    {
      ExecutedAgrees(View(), r, fresh_, track, now, env);
      var executed := Execute(fresh_.key, track, env);
      if executed.Err? {
        if executed.error == Invalid {
          var _ := ApplyState(r, fresh_, PublicState.Failed, now);
        } else {
          ScheduleRetry(r, fresh_, now);
        }
        return;
      }
      var rcof := subs[executed.value];
      if !env.linkOk {
        ScheduleRetry(r, fresh_, now);
        return;
      }
      rows := rows[r := rows[r].(rcofId := Some(executed.value))];
      var withRcof := rows[r];
      if rcof.track.None? || !env.submitOk {
        ScheduleRetry(r, fresh_, now);
        return;
      }
      var rejected := ApplyState(r, withRcof, Submitted, now);
      if rejected {
        var _ := ApplyState(r, fresh_, PublicState.Failed, now);
        return;
      }
      if Answer(rcof.status) {
        var _ := ApplyState(r, rows[r], rcof.status, now);
      }
    }

    /** The status a poll takes from a submission read as `rcof`, after asking about its TrackID. */
    method PollStatus(d: nat, rcof: Submission, answer: Option<Protocol.SiiVerdict>) returns (updated: Submission)
      requires d < |subs|
      modifies this
      ensures rows == old(rows)
      ensures var status := if rcof.track.Some? && answer.Some? then StatusFor(answer.value, rcof.status)
                            else rcof.status;
              if status == rcof.status then updated == rcof && subs == old(subs)
              else && d < |subs| && updated == subs[d]
                   && subs == old(subs)[d := old(subs)[d].(status := status, source := rcof.track)]
    {
      updated := rcof;
      if rcof.track.None? || answer.None? {
        return;
      }
      var mapped := rcof.status;
      if answer.value == Protocol.SiiAceptado {
        mapped := Accepted;
      } else if answer.value == Protocol.SiiReparo {
        mapped := Observed;
      } else if answer.value == Protocol.SiiRechazado {
        mapped := Rejected;
      }
      if mapped != rcof.status {
        subs := subs[d := subs[d].(status := mapped, source := rcof.track)];
        updated := subs[d];
      }
    }
  }

  /** Position and submissions after `execute`, or its failure and the submissions it left. */
  function ExecutedSubs(subs: seq<Submission>, key: Key, track: nat, env: Env)
    : Result<(nat, seq<Submission>), (Failure, seq<Submission>)>
  {
    if !env.dateOk then Err((Invalid, subs))
    else if !env.lookupOk then Err((Exception, subs))
    else
      var d := Find(subs, key);
      if d < |subs| && (subs[d].track.Some? || Answer(subs[d].status)) then Ok((d, subs))
      else if d == |subs| && env.day.NoReport? then Err((Invalid, subs))
      else if d == |subs| && env.day.Broken? then Err((Exception, subs))
      else
        var stored := if d == |subs| then subs + [Submission(key, Submitted, None, None)] else subs;
        match env.sent
        case Answered => Ok((d, stored[d := stored[d].(track := Some(track), status := Submitted, source := None)]))
        case Lost(_, written) =>
          Err((Exception, if written then stored[d := stored[d].(status := PublicState.Failed)] else stored))
  }

  lemma ExecutedAgrees(t: Tab, r: nat, copy: Row, track: nat, now: int, env: Env)
    requires r < |t.rows|
    ensures ProcessedTab(t, r, copy, track, now, env)
         == match ExecutedSubs(t.subs, copy.key, track, env)
            case Err((Invalid, s)) => ApplyTab(t.(subs := s), r, copy, PublicState.Failed, now)
            case Err((Exception, s)) => RetryTab(t.(subs := s), r, copy, now)
            case Ok((d, s)) => if d < |s| then LinkedTab(t.(subs := s), r, copy, d, s[d], now, env) else t
  {
    hide ApplyTab, RetryTab, LinkedTab;
    assert t.(subs := t.subs) == t;
  }
}
