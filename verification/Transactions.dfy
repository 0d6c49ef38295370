/** Why preparing a document is one atomic step: the transaction that encloses it,
    write by write, with failures and crashes anywhere and other transactions
    committing meanwhile. Nested transactions join the outer one, or do not. */
module Transactions {
  import opened Wrappers
  import opened RequestStates
  import opened EmissionDb
  import opened DocumentTotals
  import FolioLedger
  import LedgerTheorems
  import ProtocolInvariant

  /** A write not yet committed. */
  datatype Write = SetConfig(config: FolioLedger.Config) | AddDocument(doc: Doc) | LinkRow(r: nat, d: nat)

  function ApplyWrite(db: Db, w: Write): Db {
    match w
    case SetConfig(config) => db.(config := config)
    case AddDocument(doc) => db.(docs := db.docs + [doc])
    case LinkRow(r, d) => if r < |db.rows| then db.(rows := db.rows[r := db.rows[r].(dteId := Some(d))]) else db
  }

  /** The database as the transaction sees it. */
  function Seen(db: Db, writes: seq<Write>): Db {
    if writes == [] then db else ApplyWrite(Seen(db, writes[..|writes| - 1]), writes[|writes| - 1])
  }

  /** How far the transaction came; `Crashed` is a connection lost before the commit. */
  datatype Stage =
    | Opened
    | FolioTaken(folio: int)
    | DocumentAdded(d: nat)
    | Finished
    | Committed
    | Aborted(error: PrepareError)
    | Crashed

  /** `db` is what is committed; the transaction prepares request `r`. */
  datatype Tx = Tx(db: Db, r: nat, writes: seq<Write>, stage: Stage)

  predicate Over(stage: Stage) { stage.Committed? || stage.Aborted? || stage.Crashed? }

  function Fail(tx: Tx, e: PrepareError): Tx { tx.(writes := [], stage := Aborted(e)) }

  /** The reservation opens a transaction of its own: it joins the active one, or commits by itself. */
  function Reserving(tx: Tx, config: FolioLedger.Config, folio: int, joins: bool): Tx {
    if joins then tx.(writes := tx.writes + [SetConfig(config)], stage := FolioTaken(folio))
    else tx.(db := tx.db.(config := config), stage := FolioTaken(folio))
  }

  /** The transaction's own next step. */
  function Step(tx: Tx, env: PrepareEnv, joins: bool): Tx
    requires tx.r < |tx.db.rows| && !Over(tx.stage)
  {
    var row := tx.db.rows[tx.r];
    var t := row.payload.documentType;
    var seen := Seen(tx.db, tx.writes);
    match tx.stage
    case Opened =>
      if row.dteId.Some? then tx.(stage := Finished)
      else if !env.profileOk then Fail(tx, ProfileMissing)
      else if t == 46 && !env.canIssueT46 then Fail(tx, NotAuthorized)
      else (match FolioLedger.Reserved(seen.config, t)
            case Err(e) => Fail(tx, Ledger(e))
            case Ok((config, folio)) => Reserving(tx, config, folio, joins))
    case FolioTaken(folio) =>
      (match FailureAfterReserve(FolioLedger.Cafs(seen.config), row, folio, env)
       case Some(e) => Fail(tx, e)
       case None =>
         var amount := SignedTotals(row.payload, row.serverTotals.totalAmount).value.totalAmount;
         tx.(writes := tx.writes + [AddDocument(Doc(t, folio, amount, Firmado, None))],
             stage := DocumentAdded(|seen.docs|)))
    case DocumentAdded(d) => tx.(writes := tx.writes + [LinkRow(tx.r, d)], stage := Finished)
    case Finished => tx.(db := seen, writes := [], stage := Committed)
  }

  /** `Own` is the transaction's next step, `Lost` its connection lost, and `Others`
      what another transaction commits meanwhile. */
  datatype Event = Own | Lost | Others(db: Db)

  /** Others respect the locks: the request's row from the start, and from the
      reservation on the configuration, without which no document is added. */
  predicate LocksRespected(tx: Tx, db: Db) {
    && tx.r < |db.rows| && tx.r < |tx.db.rows| && db.rows[tx.r] == tx.db.rows[tx.r]
    && (!tx.stage.Opened? ==> db.config == tx.db.config && |db.docs| == |tx.db.docs|)
  }

  function Next(tx: Tx, e: Event, env: PrepareEnv, joins: bool): Option<Tx> {
    if tx.r >= |tx.db.rows| || Over(tx.stage) then None
    else
      match e
      case Own => Some(Step(tx, env, joins))
      case Lost => Some(tx.(writes := [], stage := Crashed))
      case Others(db) => if LocksRespected(tx, db) then Some(tx.(db := db)) else None
  }

  function Run(db: Db, r: nat, events: seq<Event>, env: PrepareEnv, joins: bool): Option<Tx> {
    if events == [] then Some(Tx(db, r, [], Opened))
    else
      match Run(db, r, events[..|events| - 1], env, joins)
      case None => None
      case Some(tx) => Next(tx, events[|events| - 1], env, joins)
  }

  /** The database as others left it. */
  function Left(db: Db, events: seq<Event>): Db {
    if events == [] then db
    else if events[|events| - 1].Others? then events[|events| - 1].db
    else Left(db, events[..|events| - 1])
  }

  // ---------------------------------------------------------------- atomicity

  /** The writes of a prepare that got as far as its document. */
  predicate Drafted(tx: Tx, env: PrepareEnv, config: FolioLedger.Config, doc: Doc) {
    && tx.r < |tx.db.rows| && tx.db.rows[tx.r].dteId.None?
    && Prepared(tx.db, tx.db.rows[tx.r], env)
         == Ok((tx.db.(config := config, docs := tx.db.docs + [doc]), |tx.db.docs|))
  }

  /** What the pending writes amount to at each stage, when nested transactions join. */
  ghost predicate Pending(tx: Tx, env: PrepareEnv) {
    && tx.r < |tx.db.rows|
    && var row := tx.db.rows[tx.r];
       match tx.stage
       case Opened => tx.writes == []
       case FolioTaken(folio) =>
         && |tx.writes| == 1 && tx.writes[0].SetConfig? && row.dteId.None?
         && env.profileOk && (row.payload.documentType == 46 ==> env.canIssueT46)
         && FolioLedger.Reserved(tx.db.config, row.payload.documentType) == Ok((tx.writes[0].config, folio))
       case DocumentAdded(d) =>
         && |tx.writes| == 2 && tx.writes[0].SetConfig? && tx.writes[1].AddDocument? && d == |tx.db.docs|
         && Drafted(tx, env, tx.writes[0].config, tx.writes[1].doc)
       case Finished =>
         if row.dteId.Some? then tx.writes == []
         else
           && |tx.writes| == 3 && tx.writes[0].SetConfig? && tx.writes[1].AddDocument?
           && tx.writes[2] == LinkRow(tx.r, |tx.db.docs|)
           && Drafted(tx, env, tx.writes[0].config, tx.writes[1].doc)
       case _ => true
  }

  lemma SeenOne(db: Db, w: Write)
    ensures Seen(db, [w]) == ApplyWrite(db, w)
  {
    assert [w][..0] == [];
  }

  lemma SeenMore(db: Db, writes: seq<Write>, w: Write)
    ensures Seen(db, writes + [w]) == ApplyWrite(Seen(db, writes), w)
  {
    assert (writes + [w])[..|writes|] == writes;
  }

  lemma SeenThree(db: Db, writes: seq<Write>, config: FolioLedger.Config, doc: Doc)
    requires |writes| >= 2 && writes[0] == SetConfig(config) && writes[1] == AddDocument(doc)
    ensures Seen(db, writes[..2]) == db.(config := config, docs := db.docs + [doc])
    ensures |writes| == 3 ==> Seen(db, writes) == ApplyWrite(db.(config := config, docs := db.docs + [doc]), writes[2])
  {
    assert writes[..2] == [writes[0]] + [writes[1]];
    SeenOne(db, writes[0]);
    SeenMore(db, [writes[0]], writes[1]);
  }

  /** The transaction's own steps keep the account; an error is the one of the atomic step, and so is the result. */
  lemma OwnStepKeeps(tx: Tx, env: PrepareEnv)
    requires Pending(tx, env) && !Over(tx.stage)
    ensures var tx' := Step(tx, env, true);
            && Pending(tx', env)
            && (!tx'.stage.Committed? ==> tx'.db == tx.db)
            && (tx'.stage.Committed? ==> PreparedAndLinked(tx.db, tx.r, env) == Ok(tx'.db))
            && (tx'.stage.Aborted? ==> PreparedAndLinked(tx.db, tx.r, env) == Err(tx'.stage.error))
  {
    match tx.stage
    case Opened => assert Seen(tx.db, []) == tx.db;
    case FolioTaken(_) => FolioTakenStep(tx, env);
    case DocumentAdded(_) =>
    case Finished => FinishedStep(tx, env);
  }

  lemma FolioTakenStep(tx: Tx, env: PrepareEnv)
    requires Pending(tx, env) && tx.stage.FolioTaken?
    ensures var tx' := Step(tx, env, true);
            && Pending(tx', env) && tx'.db == tx.db && !tx'.stage.Committed?
            && (tx'.stage.Aborted? ==> PreparedAndLinked(tx.db, tx.r, env) == Err(tx'.stage.error))
  {
    assert tx.writes == [tx.writes[0]];
    SeenOne(tx.db, tx.writes[0]);
  }

  lemma FinishedStep(tx: Tx, env: PrepareEnv)
    requires Pending(tx, env) && tx.stage.Finished?
    ensures var tx' := Step(tx, env, true);
            tx'.stage.Committed? && Pending(tx', env) && PreparedAndLinked(tx.db, tx.r, env) == Ok(tx'.db)
  {
    if tx.db.rows[tx.r].dteId.None? { SeenThree(tx.db, tx.writes, tx.writes[0].config, tx.writes[1].doc); }
  }

  /** The atomic prepare depends on the row, the configuration and the number of documents only. */
  lemma PreparedFrame(db: Db, other: Db, row: Row, env: PrepareEnv, config: FolioLedger.Config, doc: Doc)
    requires other.config == db.config && |other.docs| == |db.docs|
    requires Prepared(db, row, env) == Ok((db.(config := config, docs := db.docs + [doc]), |db.docs|))
    ensures Prepared(other, row, env) == Ok((other.(config := config, docs := other.docs + [doc]), |other.docs|))
  {
    assert (db.docs + [doc])[|db.docs|] == doc;
    assert Prepared(db, row, env).value.0.docs[|db.docs|] == doc;
  }

  lemma OthersKeep(tx: Tx, db: Db, env: PrepareEnv)
    requires Pending(tx, env) && !Over(tx.stage) && LocksRespected(tx, db)
    ensures Pending(tx.(db := db), env)
  {
    hide Prepared;
    if tx.stage.DocumentAdded? || (tx.stage.Finished? && tx.db.rows[tx.r].dteId.None?) {
      PreparedFrame(tx.db, db, db.rows[tx.r], env, tx.writes[0].config, tx.writes[1].doc);
    }
  }

  /** All or nothing, in every run: whatever fails or is lost wherever, and whatever
      others commit meanwhile under the locks, what is committed is what others left,
      or exactly the atomic prepare of it; and a run that throws throws the error the
      atomic prepare gives. */
  lemma {:induction false} PrepareIsAtomic(db: Db, r: nat, events: seq<Event>, env: PrepareEnv)
    requires r < |db.rows| && Run(db, r, events, env, true).Some?
    ensures var tx, left := Run(db, r, events, env, true).value, Left(db, events);
            && Pending(tx, env) && r < |left.rows| && tx.r == r
            && (!tx.stage.Committed? ==> tx.db == left)
            && (tx.stage.Committed? ==> PreparedAndLinked(left, r, env) == Ok(tx.db))
            && (tx.stage.Aborted? ==> PreparedAndLinked(left, r, env) == Err(tx.stage.error))
  {
    if events != [] {
      var init, e := events[..|events| - 1], events[|events| - 1];
      PrepareIsAtomic(db, r, init, env);
      var tx := Run(db, r, init, env, true).value;
      hide Pending, PreparedAndLinked, Step;
      if e.Own? {
        OwnStepKeeps(tx, env);
        StepKeepsRequest(tx, env);
      } else if e.Others? {
        OthersKeep(tx, e.db, env);
      } else {
        LostPending(tx, env);
      }
    }
  }

  lemma StepKeepsRequest(tx: Tx, env: PrepareEnv)
    requires tx.r < |tx.db.rows| && !Over(tx.stage)
    ensures Step(tx, env, true).r == tx.r
  {}

  lemma LostPending(tx: Tx, env: PrepareEnv)
    requires Pending(tx, env)
    ensures Pending(tx.(writes := [], stage := Crashed), env)
  {}

  /** Left alone, the transaction commits the atomic prepare, or throws its error, within four steps. */
  lemma AloneEnds(db: Db, r: nat, env: PrepareEnv) returns (events: seq<Event>)
    requires r < |db.rows|
    ensures |events| <= 4 && Left(db, events) == db
    ensures Run(db, r, events, env, true).Some?
    ensures var tx := Run(db, r, events, env, true).value;
            match PreparedAndLinked(db, r, env)
            case Ok(db') => tx.stage == Committed && tx.db == db'
            case Err(e) => tx.stage == Aborted(e) && tx.db == db
  {
    hide Pending, PreparedAndLinked, Step;
    events := [];
    while !Over(Run(db, r, events, env, true).value.stage)
      invariant Run(db, r, events, env, true).Some? && Left(db, events) == db
      invariant |events| + StepsLeft(Run(db, r, events, env, true).value.stage) <= 4
      invariant !Run(db, r, events, env, true).value.stage.Crashed?
      decreases 4 - |events|
    {
      PrepareIsAtomic(db, r, events, env);
      StepsShrink(Run(db, r, events, env, true).value, env);
      assert (events + [Own])[..|events|] == events;
      events := events + [Own];
    }
    PrepareIsAtomic(db, r, events, env);
  }

  function StepsLeft(stage: Stage): nat {
    match stage case Opened => 4 case FolioTaken(_) => 3 case DocumentAdded(_) => 2 case Finished => 1 case _ => 0
  }

  lemma StepsShrink(tx: Tx, env: PrepareEnv)
    requires tx.r < |tx.db.rows| && !Over(tx.stage)
    ensures StepsLeft(Step(tx, env, true).stage) < StepsLeft(tx.stage) && !Step(tx, env, true).stage.Crashed?
  {}

  // ------------------------------------------------ if the reservation did not join

  lemma RunTwo(db: Db, r: nat, a: Event, b: Event, env: PrepareEnv, joins: bool)
    ensures Run(db, r, [a, b], env, joins)
         == match Next(Tx(db, r, [], Opened), a, env, joins) case None => None case Some(tx) => Next(tx, b, env, joins)
  {
    hide Next;
    assert [a, b][..1] == [a] && [a][..0] == [];
    assert Run(db, r, [a], env, joins) == Next(Tx(db, r, [], Opened), a, env, joins);
  }

  /** A reservation in a transaction of its own leaks: lose the connection right
      after it, and the ledger holds a folio that no document will ever carry. */
  lemma ReservationAloneLeaks(db: Db, r: nat, env: PrepareEnv)
    requires r < |db.rows| && db.rows[r].dteId.None? && env.profileOk
             && (db.rows[r].payload.documentType == 46 ==> env.canIssueT46)
    requires FolioLedger.Reserved(db.config, db.rows[r].payload.documentType).Ok? && ProtocolInvariant.FoliosOk(db)
    ensures Run(db, r, [Own, Lost], env, false).Some?
    ensures var tx := Run(db, r, [Own, Lost], env, false).value;
            var t := db.rows[r].payload.documentType; var folio := FolioLedger.Reserved(db.config, t).value.1;
            && tx.stage == Crashed && tx.db.docs == db.docs && tx.db.rows == db.rows
            && LedgerTheorems.Issued(FolioLedger.Cafs(tx.db.config), t, folio)
            && (t, folio) !in ProtocolInvariant.DocLog(tx.db.docs)
  {
    hide Run, FolioLedger.Reserved;
    var t := db.rows[r].payload.documentType;
    var (config, folio) := FolioLedger.Reserved(db.config, t).value;
    RunTwo(db, r, Own, Lost, env, false);
    assert Seen(db, []) == db;
    assert Step(Tx(db, r, [], Opened), env, false) == Tx(db.(config := config), r, [], FolioTaken(folio));
    LedgerTheorems.ReserveIssuesOne(db.config, t, t, folio);
    LedgerTheorems.LoggedIffUsed(ProtocolInvariant.LedgerOf(db), t, folio);
  }
}
