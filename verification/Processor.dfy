/** The worker's processing of one claimed request, statement by statement on
    the tables. `Processed` says what it leaves in the database. */
module Processor {
  import opened Wrappers
  import opened RequestStates
  import opened EmissionDb

  /** What happens around the transmission: nothing is posted; the post gives no
      answer; or a TrackID arrives and the writes after it succeed or not. */
  datatype SendOutcome =
    | NotPosted
    | NoAnswer(written: bool)
    | TrackLost(track: nat, written: bool)
    | AuditLost(track: nat, written: bool)
    | Tracked(track: nat)

  function Drafted(doc: Doc, track: Option<nat>): Doc { doc.(status := Borrador, trackId := track) }

  function Sent(doc: Doc, track: nat): Doc { doc.(status := Enviado, trackId := Some(track)) }

  /** The document after the emission use case: back to draft on a failure that
      could be written down, sent with its TrackID otherwise. */
  function SentDoc(doc: Doc, outcome: SendOutcome): Doc {
    match outcome
    case NotPosted => doc
    case NoAnswer(written) => if written then Drafted(doc, doc.trackId) else doc
    case TrackLost(t, written) => if written then Drafted(doc, Some(t)) else doc
    case AuditLost(t, written) => if written then Drafted(doc, Some(t)) else Sent(doc, t)
    case Tracked(t) => Sent(doc, t)
  }

  function QuarantinedDb(db: Db, r: nat, copy: Row, now: int): Db
    requires r < |db.rows|
  {
    StateApplied(db, r, QuarantineCopy(copy), PublicState.Failed, now)
  }

  /** What follows the fence: the send, its record on the document, and the closing state. */
  function SentDb(db: Db, r: nat, held: Row, now: int, outcome: SendOutcome): Db
    requires r < |db.rows|
  {
    if held.dteId.None? || held.dteId.value >= |db.docs| then QuarantinedDb(db, r, held, now)
    else
      var d := held.dteId.value;
      var db' := DocWritten(db, d, SentDoc(db.docs[d], outcome));
      if outcome.Tracked? then StateApplied(db', r, held, Submitted, now) else QuarantinedDb(db', r, held, now)
  }

  function TransmittedDb(db: Db, r: nat, copy: Row, now: int, outcome: SendOutcome): Db
    requires r < |db.rows|
  {
    if copy.transmissionStartedAt.Some? || db.rows[r].transmissionStartedAt.Some? then QuarantinedDb(db, r, copy, now)
    else SentDb(Fenced(db, r, now), r, copy.(transmissionStartedAt := Some(now)), now, outcome)
  }

  function FinalizedDb(db: Db, r: nat, copy: Row, now: int, outcome: SendOutcome): Db
    requires r < |db.rows| && copy.dteId.Some?
  {
    if copy.dteId.value >= |db.docs| then RetryScheduled(db, r, copy, SiiUnavailable, now)
    else
      var doc := db.docs[copy.dteId.value];
      var mapped := MapDteStatus(doc.status);
      if Resolved(mapped) then
        if copy.state == Processing then
          if OutcomeOf(db, r, Submitted) == InvalidTransition then db
          else
            var db1 := StateApplied(db, r, copy, Submitted, now);
            StateApplied(db1, r, db1.rows[r], mapped, now)
        else StateApplied(db, r, copy, mapped, now)
      else if doc.trackId.Some? then StateApplied(db, r, copy, Submitted, now)
      else TransmittedDb(db, r, copy, now, outcome)
  }

  /** The database after one uninterrupted pass over a claimed request. */
  function Processed(db: Db, r: nat, now: int, env: PrepareEnv, outcome: SendOutcome): Db
    requires r < |db.rows|
  {
    var copy := db.rows[r];
    if copy.dteId.Some? then FinalizedDb(db, r, copy, now, outcome)
    else
      match PreparedAndLinked(db, r, env)
      case Err(e) => RetryScheduled(db, r, copy, CodeOf(e), now)
      case Ok(db1) => TransmittedDb(db1, r, db1.rows[r], now, outcome)
  }

  /** Whether the pass posts an envelope to the tax authority. */
  predicate PostsEnvelope(db: Db, r: nat, env: PrepareEnv, outcome: SendOutcome)
    requires r < |db.rows|
  {
    && !outcome.NotPosted?
    && db.rows[r].transmissionStartedAt.None?
    && if db.rows[r].dteId.Some? then
         && db.rows[r].dteId.value < |db.docs|
         && !Resolved(MapDteStatus(db.docs[db.rows[r].dteId.value].status))
         && db.docs[db.rows[r].dteId.value].trackId.None?
       else PreparedAndLinked(db, r, env).Ok?
  }

  // ----------------------------------------------------------------- methods

  method QuarantineTransmission(db: Tables, r: nat, copy: Row, now: int)
    requires r < |db.rows|
    modifies db, db.outbox
    ensures db.View() == QuarantinedDb(old(db.View()), r, copy, now)
  {
    var held := copy.(lastError := Some(ErrorInfo(SiiUnavailable, false)));
    var _ := db.ApplyState(r, held, PublicState.Failed, now);
  }

  /** The emission use case: posts the envelope once and records the answer on the document. */
  method EmitTransmit(db: Tables, d: nat, outcome: SendOutcome) returns (track: Option<nat>, posted: bool)
    requires d < |db.docs|
    modifies db
    ensures db.View() == DocWritten(old(db.View()), d, SentDoc(old(db.docs)[d], outcome))
    ensures track == if outcome.Tracked? then Some(outcome.track) else None
    ensures posted <==> !outcome.NotPosted?
  {
    var saved := db.docs[d];
    assert db.docs == db.docs[d := saved];
    track, posted := None, false;
    if outcome.NotPosted? {
      return;
    }
    posted := true;
    if outcome.NoAnswer? || outcome.TrackLost? {
      saved := saved.(status := Borrador);
      if outcome.TrackLost? {
        saved := saved.(trackId := Some(outcome.track));
      }
      if outcome.written {
        db.UpdateDocument(d, saved);
      }
      return;
    }
    saved := saved.(status := Enviado, trackId := Some(outcome.track));
    db.UpdateDocument(d, saved);
    if outcome.AuditLost? {
      if outcome.written {
        saved := saved.(status := Borrador);
        db.UpdateDocument(d, saved);
      }
      return;
    }
    track := Some(outcome.track);
  }

  method Transmit(db: Tables, r: nat, copy: Row, now: int, outcome: SendOutcome) returns (posted: bool)
    requires r < |db.rows|
    modifies db, db.outbox
    ensures db.View() == TransmittedDb(old(db.View()), r, copy, now, outcome)
    ensures posted <==>
              && !outcome.NotPosted? && copy.transmissionStartedAt.None?
              && old(db.rows)[r].transmissionStartedAt.None?
              && copy.dteId.Some? && copy.dteId.value < |old(db.docs)|
  {
    posted := false;
    if copy.transmissionStartedAt.Some? {
      QuarantineTransmission(db, r, copy, now);
      return;
    }
    var marked := db.MarkAttempt(r, now);
    if !marked {
      QuarantineTransmission(db, r, copy, now);
      return;
    }
    var held := copy.(transmissionStartedAt := Some(now));
    if held.dteId.None? || held.dteId.value >= |db.docs| {
      QuarantineTransmission(db, r, held, now);
      return;
    }
    var track, sent := EmitTransmit(db, held.dteId.value, outcome);
    posted := sent;
    if track.Some? {
      var _ := db.ApplyState(r, held, Submitted, now);
    } else {
      QuarantineTransmission(db, r, held, now);
    }
  }

  method TransmitOrFinalize(db: Tables, r: nat, copy: Row, now: int, outcome: SendOutcome) returns (posted: bool)
    requires r < |db.rows| && copy.dteId.Some? && copy == db.rows[r]
    modifies db, db.outbox
    ensures db.View() == FinalizedDb(old(db.View()), r, copy, now, outcome)
    ensures posted <==> !outcome.NotPosted? && copy.transmissionStartedAt.None? && copy.dteId.value < |old(db.docs)|
                        && !Resolved(MapDteStatus(old(db.docs)[copy.dteId.value].status))
                        && old(db.docs)[copy.dteId.value].trackId.None?
  {
    posted := false;
    if copy.dteId.value >= |db.docs| {
      db.ScheduleRetry(r, copy, SiiUnavailable, now);
      return;
    }
    var doc := db.docs[copy.dteId.value];
    var mapped := MapDteStatus(doc.status);
    if Resolved(mapped) {
      var submitted := copy;
      if copy.state == Processing {
        var res := db.ApplyState(r, copy, Submitted, now);
        if res == InvalidTransition {
          return;
        }
        submitted := db.rows[r];
      }
      var _ := db.ApplyState(r, submitted, mapped, now);
      return;
    }
    if doc.trackId.Some? {
      var _ := db.ApplyState(r, copy, Submitted, now);
      return;
    }
    posted := Transmit(db, r, copy, now, outcome);
  }

  /** One pass over a claimed request, from the fresh read to the last write. */
  method Process(db: Tables, r: nat, now: int, env: PrepareEnv, outcome: SendOutcome) returns (posted: bool)
    requires r < |db.rows|
    modifies db, db.tenantConfig, db.outbox
    ensures db.View() == Processed(old(db.View()), r, now, env, outcome)
    ensures posted <==> PostsEnvelope(old(db.View()), r, env, outcome)
  {
    var copy := db.rows[r];
    if copy.dteId.Some? {
      posted := TransmitOrFinalize(db, r, copy, now, outcome);
      return;
    }
    var linked := db.PrepareAndLink(r, env);
    if linked.Err? {
      db.ScheduleRetry(r, copy, CodeOf(linked.error), now);
      return false;
    }
    posted := Transmit(db, r, linked.value, now, outcome);
  }
}
