/** Durable state of the emission worker for one tenant and the atomic
    operations on it: each is one database transaction. */
module EmissionDb {
  import opened Wrappers
  import opened RequestStates
  import opened DocumentTotals
  import opened DiscountEngine
  import FolioLedger
  import Outbox

  const MAX_ATTEMPTS := 5

  datatype ErrorCode = FolioExhausted | SiiUnavailable

  datatype ErrorInfo = ErrorInfo(code: ErrorCode, retryable: bool)

  /** `serverTotals` are the totals promised with the 202, stored with the payload. */
  datatype Row = Row(payload: Payload, serverTotals: Totals, state: PublicState, dteId: Option<nat>,
                     attempts: nat, maxAttempts: nat, nextAttemptAt: int, lockedAt: Option<int>,
                     transmissionStartedAt: Option<int>, lastError: Option<ErrorInfo>, history: seq<HistoryEntry>,
                     submittedAt: Option<int>, finalizedAt: Option<int>)

  datatype Doc = Doc(typ: int, folio: int, amount: int, status: DteStatus, trackId: Option<nat>)

  /** Identifiers are positions: rows and documents are never deleted. */
  datatype Db = Db(rows: seq<Row>, docs: seq<Doc>, config: FolioLedger.Config, outbox: Outbox.Box)

  // ---------------------------------------------------------------- enqueue

  function NewRow(p: Payload, totals: Totals, now: int): Row {
    Row(p, totals, Queued, None, 0, MAX_ATTEMPTS, now, None, None, None, [HistoryEntry(Queued, None, now)], None, None)
  }

  // ------------------------------------------------------------------ claim

  predicate Claimable(row: Row, now: int) {
    row.state == Queued || (row.state == Processing && row.nextAttemptAt <= now)
  }

  function ClaimedRow(row: Row, now: int): Row {
    row.(state := Processing, lockedAt := Some(now), nextAttemptAt := now + LOCK_TIMEOUT_MS)
  }

  // ---------------------------------------------------------------- prepare

  /** What the outside world answers while a document is prepared. */
  datatype PrepareEnv = PrepareEnv(profileOk: bool, canIssueT46: bool, cafKeyOk: bool, signatureOk: bool, storeOk: bool)

  datatype PrepareError =
    | ProfileMissing | NotAuthorized | Ledger(e: FolioLedger.LedgerError) | NoCafForFolio | CafKeyUnreadable
    | SignatureUnavailable | EngineFailed | FolioNotAllowed | StoreFailed

  /** The retry code depends on whether the message mentions a CAF or a folio. */
  function CodeOf(e: PrepareError): ErrorCode {
    if e.NotAuthorized? || e.Ledger? || e.NoCafForFolio? || e.CafKeyUnreadable? || e.FolioNotAllowed? then
      FolioExhausted
    else SiiUnavailable
  }

  /** Reserve a folio, find its CAF, build and store the document. */
  function Prepared(db: Db, row: Row, env: PrepareEnv): Result<(Db, nat), PrepareError> {
    var t := row.payload.documentType;
    if !env.profileOk then Err(ProfileMissing)
    else if t == 46 && !env.canIssueT46 then Err(NotAuthorized)
    else
      match FolioLedger.Reserved(db.config, t)
      case Err(e) => Err(Ledger(e))
      case Ok((config, folio)) =>
        var cafs := FolioLedger.Cafs(config);
        var i := FolioLedger.CafFor(cafs, t, folio);
        if i == |cafs| then Err(NoCafForFolio)
        else if !env.cafKeyOk then Err(CafKeyUnreadable)
        else if !env.signatureOk then Err(SignatureUnavailable)
        else
          match SignedTotals(row.payload, row.serverTotals.totalAmount)
          case Err(_) => Err(EngineFailed)
          case Ok(totals) =>
            if !FolioLedger.FolioAllowed(cafs[i], t, folio) then Err(FolioNotAllowed)
            else if !env.storeOk then Err(StoreFailed)
            else Ok((db.(config := config, docs := db.docs + [Doc(t, folio, totals.totalAmount, Firmado, None)]),
                     |db.docs|))
  }

  /** The configuration a failed preparation has written so far: with the reserved
      folio, if it came to the reservation. */
  function LeftBehind(config: FolioLedger.Config, t: int, error: PrepareError): FolioLedger.Config {
    if error.ProfileMissing? || error.NotAuthorized? || error.Ledger? || FolioLedger.Reserved(config, t).Err? then
      config
    else FolioLedger.Reserved(config, t).value.0
  }

  /** Prepare and link in one transaction: an error leaves the database as it was. */
  function PreparedAndLinked(db: Db, r: nat, env: PrepareEnv): Result<Db, PrepareError>
    requires r < |db.rows|
  {
    if db.rows[r].dteId.Some? then Ok(db)
    else
      match Prepared(db, db.rows[r], env)
      case Err(e) => Err(e)
      case Ok((db', id)) => Ok(db'.(rows := db.rows[r := db.rows[r].(dteId := Some(id))]))
  }

  // ------------------------------------------------------------------ fence

  function Fenced(db: Db, r: nat, now: int): Db
    requires r < |db.rows|
  {
    db.(rows := db.rows[r := db.rows[r].(transmissionStartedAt := Some(now))])
  }

  // ----------------------------------------------------------- state changes

  /** A row written back from a worker's copy, with state and history taken from the locked row. */
  function Advanced(copy: Row, persisted: Row, target: PublicState, now: int): Row {
    copy.(state := target,
          history := persisted.history + [HistoryEntry(target, Some(persisted.state), now)],
          submittedAt := if target == Submitted then Some(now) else copy.submittedAt,
          finalizedAt := if Terminal(target) || target == Failed then Some(now) else copy.finalizedAt)
  }

  datatype Applied = Unchanged | Changed | InvalidTransition

  function OutcomeOf(db: Db, r: nat, target: PublicState): Applied
    requires r < |db.rows|
  {
    if db.rows[r].state == target then Unchanged
    else if !IsTransitionAllowed(db.rows[r].state, target) then InvalidTransition
    else Changed
  }

  /** The database after `applyState`; an invalid transition rolls back. */
  function StateApplied(db: Db, r: nat, copy: Row, target: PublicState, now: int): Db
    requires r < |db.rows|
  {
    if OutcomeOf(db, r, target) != Changed then db
    else
      var db' := db.(rows := db.rows[r := Advanced(copy, db.rows[r], target, now)]);
      if Notifiable(target) then db'.(outbox := Outbox.Emitted(db.outbox, r, target, now)) else db'
  }

  // ------------------------------------------------------------------ retry

  function RetryCopy(copy: Row, code: ErrorCode): Row {
    copy.(attempts := copy.attempts + 1, lastError := Some(ErrorInfo(code, true)))
  }

  function EffectiveMax(row: Row): nat { if row.maxAttempts == 0 then 5 else row.maxAttempts }

  /** Written without a row lock: the whole copy replaces the row. */
  function RetryScheduled(db: Db, r: nat, copy: Row, code: ErrorCode, now: int): Db
    requires r < |db.rows|
  {
    var next := RetryCopy(copy, code);
    if next.attempts >= EffectiveMax(next) then StateApplied(db, r, next, PublicState.Failed, now)
    else db.(rows := db.rows[r := next.(nextAttemptAt := now + Backoff(next.attempts))])
  }

  // --------------------------------------------------------------- documents

  function DocWritten(db: Db, d: nat, doc: Doc): Db
    requires d < |db.docs|
  {
    db.(docs := db.docs[d := doc])
  }

  function QuarantineCopy(copy: Row): Row {
    copy.(lastError := Some(ErrorInfo(SiiUnavailable, false)))
  }

  /** What a transaction that touches rows, documents or configuration can undo. */
  datatype Snapshot = Snapshot(rows: seq<Row>, docs: seq<Doc>, config: FolioLedger.Config)

  /** The tables, changed in place. */
  class Tables {
    var rows: seq<Row>
    var docs: seq<Doc>
    const tenantConfig: FolioLedger.TenantConfigRecord
    const outbox: Outbox.OutboxTables

    constructor ()
      ensures View() == Db([], [], FolioLedger.Missing, Outbox.Box([], [], []))
      ensures fresh(tenantConfig) && fresh(outbox)
    {
      rows, docs := [], [];
      tenantConfig := new FolioLedger.TenantConfigRecord();
      outbox := new Outbox.OutboxTables();
    }

    ghost function View(): Db
      reads this, tenantConfig, outbox
    {
      Db(rows, docs, tenantConfig.config, outbox.Contents())
    }

    method Enqueue(p: Payload, allowNotes: bool, now: int) returns (r: Result<nat, ValidationError>)
      modifies this
      ensures r.Ok? <==> Accept(p, allowNotes).Ok?
      ensures r.Ok? ==>
                && r.value == |old(rows)|
                && View() == old(View()).(rows := old(rows) + [NewRow(p, Accept(p, allowNotes).value, now)])
      ensures r.Err? ==> View() == old(View()) && r.error == Accept(p, allowNotes).error
    {
      var accepted := Accept(p, allowNotes);
      if accepted.Err? {
        return Err(accepted.error);
      }
      rows := rows + [NewRow(p, accepted.value, now)];
      r := Ok(|rows| - 1);
    }

    /** Claims the first `limit` due rows in creation order, skipping locked ones. */
    method ClaimDue(limit: nat, locked: set<nat>, now: int) returns (claimed: seq<nat>)
      modifies this`rows
      ensures claimed == Due(old(rows), limit, locked, now)
      ensures rows == ClaimAll(old(rows), claimed, now)
    {
      claimed := [];
      ghost var before := rows;
      var i := 0;
      while i < |rows|
        invariant 0 <= i <= |rows| == |before|
        invariant claimed == Due(before[..i], limit, locked, now)
        invariant rows == ClaimAll(before, claimed, now)
        invariant forall r :: i <= r < |before| ==> rows[r] == before[r]
      {
        assert before[..i + 1][..i] == before[..i];
        if |claimed| < limit && i !in locked && Claimable(rows[i], now) {
          assert (claimed + [i])[..|claimed|] == claimed;
          rows := rows[i := ClaimedRow(rows[i], now)];
          claimed := claimed + [i];
        }
        i := i + 1;
      }
      assert before[..|before|] == before;
    }

    /** Undoes every write since the snapshot was taken, as an aborted transaction does. */
    method Rollback(saved: Snapshot)
      modifies this, tenantConfig
      ensures rows == saved.rows && docs == saved.docs && tenantConfig.config == saved.config
    {
      rows, docs := saved.rows, saved.docs;
      tenantConfig.config := saved.config;
    }

    /** `prepare` and the link, write by write; a failure leaves what was written so far. */
    method PrepareInside(r: nat, env: PrepareEnv) returns (res: Result<Row, PrepareError>)
      requires r < |rows|
      modifies this, tenantConfig
      ensures res.Ok? <==> PreparedAndLinked(old(View()), r, env).Ok?
      ensures res.Ok? ==> View() == PreparedAndLinked(old(View()), r, env).value && r < |rows| && res.value == rows[r]
      ensures res.Err? ==> res.error == PreparedAndLinked(old(View()), r, env).error
      ensures res.Err? ==>
                View() == old(View()).(config :=
                            LeftBehind(old(View()).config, old(rows)[r].payload.documentType, res.error))
    {
      hide SignedTotals, FolioLedger.Reserved, FolioLedger.CafFor, FolioLedger.FolioAllowed, Prepared;
      PreparedInParts(View(), rows[r], env);
      if rows[r].dteId.Some? {
        return Ok(rows[r]);
      }
      var t := rows[r].payload.documentType;
      if !env.profileOk {
        return Err(ProfileMissing);
      }
      if t == 46 && !env.canIssueT46 {
        return Err(NotAuthorized);
      }
      var folio := tenantConfig.ReserveFolio(t);
      if folio.Err? {
        return Err(Ledger(folio.error));
      }
      var failure := FailureAfterReserve(FolioLedger.Cafs(tenantConfig.config), rows[r], folio.value, env);
      if failure.Some? {
        return Err(failure.value);
      }
      var totals := SignedTotals(rows[r].payload, rows[r].serverTotals.totalAmount).value;
      docs := docs + [Doc(t, folio.value, totals.totalAmount, Firmado, None)];
      rows := rows[r := rows[r].(dteId := Some(|docs| - 1))];
      res := Ok(rows[r]);
    }

    /** `PrepareInside` in one transaction: an error aborts it, reservation included. */
    method PrepareAndLink(r: nat, env: PrepareEnv) returns (res: Result<Row, PrepareError>)
      requires r < |rows|
      modifies this, tenantConfig
      ensures res.Ok? <==> PreparedAndLinked(old(View()), r, env).Ok?
      ensures res.Ok? ==> View() == PreparedAndLinked(old(View()), r, env).value && r < |rows| && res.value == rows[r]
      ensures res.Err? ==> View() == old(View()) && res.error == PreparedAndLinked(old(View()), r, env).error
    {
      var saved := Snapshot(rows, docs, tenantConfig.config);
      res := PrepareInside(r, env);
      if res.Err? {
        Rollback(saved);
      }
    }

    /** Sets the fence under the row lock, unless it is already set. */
    method MarkAttempt(r: nat, now: int) returns (marked: bool)
      requires r < |rows|
      modifies this
      ensures marked <==> old(rows)[r].transmissionStartedAt.None?
      ensures View() == if marked then Fenced(old(View()), r, now) else old(View())
    {
      if rows[r].transmissionStartedAt.Some? {
        return false;
      }
      rows := rows[r := rows[r].(transmissionStartedAt := Some(now))];
      marked := true;
    }

    method ApplyState(r: nat, copy: Row, target: PublicState, now: int) returns (res: Applied)
      requires r < |rows|
      modifies this, outbox
      ensures res == OutcomeOf(old(View()), r, target)
      ensures View() == StateApplied(old(View()), r, copy, target, now)
    {
      var persisted := rows[r];
      if persisted.state == target {
        return Unchanged;
      }
      if !IsTransitionAllowed(persisted.state, target) {
        return InvalidTransition;
      }
      var request := copy.(state := target,
                           history := persisted.history + [HistoryEntry(target, Some(persisted.state), now)]);
      if target == Submitted {
        request := request.(submittedAt := Some(now));
      }
      if Terminal(target) || target == PublicState.Failed {
        request := request.(finalizedAt := Some(now));
      }
      rows := rows[r := request];
      if Notifiable(target) {
        outbox.EmitEvent(r, target, now);
      }
      res := Changed;
    }

    method ScheduleRetry(r: nat, copy: Row, code: ErrorCode, now: int)
      requires r < |rows|
      modifies this, outbox
      ensures View() == RetryScheduled(old(View()), r, copy, code, now)
    {
      var request := copy.(attempts := copy.attempts + 1);
      request := request.(lastError := Some(ErrorInfo(code, true)));
      if request.attempts >= EffectiveMax(request) {
        var _ := ApplyState(r, request, PublicState.Failed, now);
        return;
      }
      request := request.(nextAttemptAt := now + Backoff(request.attempts));
      rows := rows[r := request];
    }

    method UpdateDocument(d: nat, doc: Doc)
      requires d < |docs|
      modifies this
      ensures View() == DocWritten(old(View()), d, doc)
    {
      docs := docs[d := doc];
    }
  }

  // ------------------------------------------------------------ claim batch

  /** The first `limit` claimable rows, in creation order, not held by another transaction. */
  function Due(rows: seq<Row>, limit: nat, locked: set<nat>, now: int): seq<nat> {
    if rows == [] then []
    else
      var earlier := Due(rows[..|rows| - 1], limit, locked, now);
      var last := |rows| - 1;
      if |earlier| < limit && last !in locked && Claimable(rows[last], now) then earlier + [last] else earlier
  }

  /** Claiming rows one after another. */
  function ClaimAll(rows: seq<Row>, ids: seq<nat>, now: int): seq<Row> {
    if ids == [] then rows
    else
      var rows' := ClaimAll(rows, ids[..|ids| - 1], now);
      var r := ids[|ids| - 1];
      if r < |rows'| then rows'[r := ClaimedRow(rows'[r], now)] else rows'
  }

  /** What can still fail once the folio is reserved; every such failure rolls back. */
  function FailureAfterReserve(cafs: seq<FolioLedger.Caf>, row: Row, folio: int, env: PrepareEnv)
    : Option<PrepareError>
  {
    var t := row.payload.documentType;
    var i := FolioLedger.CafFor(cafs, t, folio);
    if i == |cafs| then Some(NoCafForFolio)
    else if !env.cafKeyOk then Some(CafKeyUnreadable)
    else if !env.signatureOk then Some(SignatureUnavailable)
    else if SignedTotals(row.payload, row.serverTotals.totalAmount).Err? then Some(EngineFailed)
    else if !FolioLedger.FolioAllowed(cafs[i], t, folio) then Some(FolioNotAllowed)
    else if !env.storeOk then Some(StoreFailed)
    else None
  }

  /** A preparation is its checks, the reservation, and what can fail after it. */
  lemma PreparedInParts(db: Db, row: Row, env: PrepareEnv)
    ensures var t := row.payload.documentType; var reserved := FolioLedger.Reserved(db.config, t);
            if !env.profileOk then Prepared(db, row, env) == Err(ProfileMissing)
            else if t == 46 && !env.canIssueT46 then Prepared(db, row, env) == Err(NotAuthorized)
            else if reserved.Err? then Prepared(db, row, env) == Err(Ledger(reserved.error))
            else
              var (config, folio) := reserved.value;
              var failure := FailureAfterReserve(FolioLedger.Cafs(config), row, folio, env);
              if failure.Some? then Prepared(db, row, env) == Err(failure.value)
              else
                var totals := SignedTotals(row.payload, row.serverTotals.totalAmount);
                && totals.Ok?
                && Prepared(db, row, env)
                   == Ok((db.(config := config,
                              docs := db.docs + [Doc(t, folio, totals.value.totalAmount, Firmado, None)]),
                          |db.docs|))
  {
    hide SignedTotals, FolioLedger.Reserved, FolioLedger.CafFor, FolioLedger.FolioAllowed;
  }
}
