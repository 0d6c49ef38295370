/** Idempotent acceptance of requests: two reads, one insert under two unique
    indexes, and the two reads that resolve a lost race. Calls interleave at
    every read and write. */
module Enqueue {
  import opened Wrappers

  /** One call's input; an absent resource key counts as the empty one. */
  datatype Input = Input(tenant: nat, kind: nat, resourceKey: Option<string>, idempotencyKey: string, hash: nat,
                         externalReference: Option<string>)

  datatype Stored = Stored(tenant: nat, kind: nat, resourceKey: string, idempotencyKey: string, hash: nat,
                           externalReference: Option<string>)

  datatype Outcome =
    | Created(id: nat)
    | Replayed(id: nat)
    | IdempotencyConflict
    | ReferenceConflict
    | InsertFailed
    | Rethrown

  function RowOf(i: Input): Stored {
    Stored(i.tenant, i.kind, if i.resourceKey.Some? then i.resourceKey.value else "", i.idempotencyKey, i.hash,
           i.externalReference)
  }

  predicate SameKey(a: Stored, b: Stored) {
    a.tenant == b.tenant && a.kind == b.kind && a.resourceKey == b.resourceKey && a.idempotencyKey == b.idempotencyKey
  }

  predicate SameReference(a: Stored, b: Stored) {
    a.tenant == b.tenant && a.externalReference.Some? && a.externalReference == b.externalReference
  }

  /** The reference counts as given only if it is not the empty string. */
  predicate Truthy(i: Input) { i.externalReference.Some? && i.externalReference.value != "" }

  /** Position of a row with the same key, or the length. */
  function FindKey(rows: seq<Stored>, x: Stored): (i: nat)
    ensures i <= |rows| && (i < |rows| ==> SameKey(rows[i], x))
    ensures forall j :: 0 <= j < i ==> !SameKey(rows[j], x)
  {
    if rows == [] then 0 else if SameKey(rows[0], x) then 0 else 1 + FindKey(rows[1..], x)
  }

  function FindReference(rows: seq<Stored>, x: Stored): (i: nat)
    ensures i <= |rows| && (i < |rows| ==> SameReference(rows[i], x))
    ensures forall j :: 0 <= j < i ==> !SameReference(rows[j], x)
  {
    if rows == [] then 0 else if SameReference(rows[0], x) then 0 else 1 + FindReference(rows[1..], x)
  }

  /** Whether the unique indexes refuse the row. */
  predicate Violates(rows: seq<Stored>, x: Stored) {
    FindKey(rows, x) < |rows| || FindReference(rows, x) < |rows|
  }

  // --------------------------------------------------------- concurrent calls

  datatype Pc = ReadKey | ReadReference | Insert | RaceKey | RaceReference | Finished(outcome: Outcome)

  datatype Call = Call(input: Input, pc: Pc)

  datatype Sys = Sys(rows: seq<Stored>, calls: seq<Call>)

  datatype Action = Arrive(input: Input) | Step(c: nat) | BreakInsert(c: nat)

  const EMPTY := Sys([], [])

  /** What a call finds and does next, alone on the table. */
  function Advance(rows: seq<Stored>, i: Input, pc: Pc): (seq<Stored>, Pc)
    requires !pc.Finished?
  {
    var x := RowOf(i);
    match pc
    case ReadKey =>
      var k := FindKey(rows, x);
      (rows, if k == |rows| then (if Truthy(i) then ReadReference else Insert)
             else if rows[k].hash != x.hash then Finished(IdempotencyConflict)
             else Finished(Replayed(k)))
    case ReadReference =>
      var k := FindReference(rows, x);
      (rows, if k < |rows| && rows[k].idempotencyKey != x.idempotencyKey then Finished(ReferenceConflict) else Insert)
    case Insert => if Violates(rows, x) then (rows, RaceKey) else (rows + [x], Finished(Created(|rows|)))
    case RaceKey =>
      var k := FindKey(rows, x);
      (rows, if k == |rows| then (if Truthy(i) then RaceReference else Finished(Rethrown))
             else if rows[k].hash != x.hash then Finished(IdempotencyConflict)
             else Finished(Replayed(k)))
    case RaceReference =>
      (rows, if FindReference(rows, x) < |rows| then Finished(ReferenceConflict) else Finished(Rethrown))
  }

  predicate Running(s: Sys, c: nat) { c < |s.calls| && !s.calls[c].pc.Finished? }

  function Next(s: Sys, a: Action): Option<Sys> {
    match a
    case Arrive(input) => Some(s.(calls := s.calls + [Call(input, ReadKey)]))
    case Step(c) =>
      if !Running(s, c) then None
      else
        var (rows, pc) := Advance(s.rows, s.calls[c].input, s.calls[c].pc);
        Some(Sys(rows, s.calls[c := s.calls[c].(pc := pc)]))
    case BreakInsert(c) =>
      if Running(s, c) && s.calls[c].pc.Insert? then
        Some(s.(calls := s.calls[c := s.calls[c].(pc := Finished(InsertFailed))]))
      else None
  }

  function Run(actions: seq<Action>): Option<Sys> {
    if actions == [] then Some(EMPTY)
    else
      match Run(actions[..|actions| - 1])
      case None => None
      case Some(s) => Next(s, actions[|actions| - 1])
  }

  // --------------------------------------------------------------- invariant

  /** At most one row per key and per reference. */
  ghost predicate Unique(rows: seq<Stored>) {
    && (forall i, j :: 0 <= i < j < |rows| ==> !SameKey(rows[i], rows[j]))
    && (forall i, j :: 0 <= i < j < |rows| ==> !SameReference(rows[i], rows[j]))
  }

  ghost predicate HasKey(rows: seq<Stored>, x: Stored) { exists i :: 0 <= i < |rows| && SameKey(rows[i], x) }

  ghost predicate HasReference(rows: seq<Stored>, x: Stored) {
    exists i :: 0 <= i < |rows| && SameReference(rows[i], x)
  }

  /** A committed row holds the reference under another key. */
  ghost predicate ReferenceTaken(rows: seq<Stored>, x: Stored) {
    exists i :: 0 <= i < |rows| && SameReference(rows[i], x) && !SameKey(rows[i], x)
  }

  /** What a call knows, and what its outcome means. */
  ghost predicate CallOk(rows: seq<Stored>, call: Call) {
    var x := RowOf(call.input);
    match call.pc
    case ReadKey => true
    case ReadReference => Truthy(call.input)
    case Insert => true
    case RaceKey => HasKey(rows, x) || HasReference(rows, x)
    case RaceReference => Truthy(call.input) && ReferenceTaken(rows, x)
    case Finished(Created(id)) => id < |rows| && rows[id] == x
    case Finished(Replayed(id)) => id < |rows| && SameKey(rows[id], x) && rows[id].hash == x.hash
    case Finished(IdempotencyConflict) => exists i :: 0 <= i < |rows| && SameKey(rows[i], x) && rows[i].hash != x.hash
    case Finished(ReferenceConflict) => ReferenceTaken(rows, x)
    case Finished(InsertFailed) => true
    case Finished(Rethrown) => x.externalReference == Some("") && ReferenceTaken(rows, x)
  }

  ghost predicate CreatedBy(s: Sys, c: nat, id: nat) { c < |s.calls| && s.calls[c].pc == Finished(Created(id)) }

  ghost predicate HasCreator(s: Sys, id: nat) { exists c: nat :: CreatedBy(s, c, id) }

  /** Every row was created by exactly one call. */
  ghost predicate OneCreator(s: Sys) {
    && (forall id: nat :: id < |s.rows| ==> HasCreator(s, id))
    && (forall c: nat, d: nat, id: nat :: CreatedBy(s, c, id) && CreatedBy(s, d, id) ==> c == d)
  }

  ghost predicate Inv(s: Sys) {
    && Unique(s.rows) && OneCreator(s)
    && forall c :: 0 <= c < |s.calls| ==> CallOk(s.rows, s.calls[c])
  }

  /** Rows only grow, so what a call knows stays true. */
  lemma KnowledgeStays(rows: seq<Stored>, x: Stored, call: Call)
    requires CallOk(rows, call)
    ensures CallOk(rows + [x], call)
  {
    var y := RowOf(call.input);
    if HasKey(rows, y) {
      var i :| 0 <= i < |rows| && SameKey(rows[i], y);
      assert SameKey((rows + [x])[i], y);
    }
    if HasReference(rows, y) {
      var i :| 0 <= i < |rows| && SameReference(rows[i], y);
      assert SameReference((rows + [x])[i], y);
    }
    if ReferenceTaken(rows, y) {
      var i :| 0 <= i < |rows| && SameReference(rows[i], y) && !SameKey(rows[i], y);
      assert SameReference((rows + [x])[i], y) && !SameKey((rows + [x])[i], y);
    }
    if call.pc == Finished(IdempotencyConflict) {
      var i :| 0 <= i < |rows| && SameKey(rows[i], y) && rows[i].hash != y.hash;
      assert SameKey((rows + [x])[i], y);
    }
  }

  /** One step of a call, seen from the call itself. */
  lemma StepKnows(rows: seq<Stored>, call: Call)
    requires Unique(rows) && CallOk(rows, call) && !call.pc.Finished?
    ensures var (rows', pc') := Advance(rows, call.input, call.pc);
            Unique(rows') && CallOk(rows', call.(pc := pc'))
  {
    var x := RowOf(call.input);
    match call.pc
    case ReadKey =>
    case ReadReference =>
    case Insert =>
      if FindKey(rows, x) < |rows| { assert HasKey(rows, x); }
      else if FindReference(rows, x) < |rows| { assert HasReference(rows, x); }
    case RaceKey =>
      if FindKey(rows, x) == |rows| {
        var i :| 0 <= i < |rows| && SameReference(rows[i], x);
        assert ReferenceTaken(rows, x);
      }
    case RaceReference =>
      var i :| 0 <= i < |rows| && SameReference(rows[i], x) && !SameKey(rows[i], x);
  }

  lemma CreatorsKept(s: Sys, c: nat)
    requires Inv(s) && Running(s, c)
    ensures OneCreator(Next(s, Step(c)).value)
  {
    var s' := Next(s, Step(c)).value;
    forall id: nat | id < |s'.rows| ensures HasCreator(s', id) {
      if id < |s.rows| {
        assert HasCreator(s, id);
        var d: nat :| CreatedBy(s, d, id);
        assert CreatedBy(s', d, id);
      } else {
        assert CreatedBy(s', c, id);
      }
    }
    forall d: nat, e: nat, id: nat | CreatedBy(s', d, id) && CreatedBy(s', e, id) ensures d == e {
      if d != c { assert CreatedBy(s, d, id) && CallOk(s.rows, s.calls[d]); }
      if e != c { assert CreatedBy(s, e, id) && CallOk(s.rows, s.calls[e]); }
    }
  }

  lemma StepKeeps(s: Sys, c: nat)
    requires Inv(s) && Running(s, c)
    ensures Inv(Next(s, Step(c)).value)
  {
    var s' := Next(s, Step(c)).value;
    CreatorsKept(s, c);
    StepKnows(s.rows, s.calls[c]);
    forall d | 0 <= d < |s'.calls| ensures CallOk(s'.rows, s'.calls[d]) {
      if d != c && s'.rows != s.rows { KnowledgeStays(s.rows, RowOf(s.calls[c].input), s.calls[d]); }
    }
  }

  /** Calls that create nothing leave the creators alone. */
  lemma SameCreators(s: Sys, s': Sys)
    requires Inv(s) && s'.rows == s.rows
    requires forall c: nat, id: nat :: CreatedBy(s', c, id) <==> CreatedBy(s, c, id)
    ensures OneCreator(s')
  {
    forall id: nat | id < |s'.rows| ensures HasCreator(s', id) {
      assert HasCreator(s, id);
      var d: nat :| CreatedBy(s, d, id);
      assert CreatedBy(s', d, id);
    }
  }

  /** Every run of any number of calls keeps the indexes unique and every outcome truthful. */
  lemma {:induction false} RunKeeps(actions: seq<Action>)
    requires Run(actions).Some?
    ensures Inv(Run(actions).value)
  {
    if actions != [] {
      var a := actions[|actions| - 1];
      RunKeeps(actions[..|actions| - 1]);
      var s := Run(actions[..|actions| - 1]).value;
      if a.Step? { StepKeeps(s, a.c); } else { SameCreators(s, Run(actions).value); }
    }
  }

  // ---------------------------------------------------------------- theorems

  /** At most one row per (tenant, kind, resource, key) and per (tenant, reference). */
  lemma {:induction false} RowsAreUnique(actions: seq<Action>, i: nat, j: nat)
    requires Run(actions).Some? && i < j < |Run(actions).value.rows|
    ensures var rows := Run(actions).value.rows; !SameKey(rows[i], rows[j]) && !SameReference(rows[i], rows[j])
  {
    RunKeeps(actions);
  }

  /** Every success returns a row with the caller's own key and hash. */
  lemma {:induction false} SuccessIsOwn(actions: seq<Action>, c: nat)
    requires Run(actions).Some? && c < |Run(actions).value.calls|
    requires Run(actions).value.calls[c].pc.Finished?
             && (Run(actions).value.calls[c].pc.outcome.Created? || Run(actions).value.calls[c].pc.outcome.Replayed?)
    ensures var s := Run(actions).value; var x, id := RowOf(s.calls[c].input), s.calls[c].pc.outcome.id;
            id < |s.rows| && SameKey(s.rows[id], x) && s.rows[id].hash == x.hash
  {
    RunKeeps(actions);
    assert CallOk(Run(actions).value.rows, Run(actions).value.calls[c]);
  }

  /** Two successes under one key return one row, and at most one of them is not a replay. */
  lemma {:induction false} OneRowPerKey(actions: seq<Action>, c: nat, d: nat)
    requires Run(actions).Some? && c < |Run(actions).value.calls| && d < |Run(actions).value.calls| && c != d
    requires var s := Run(actions).value;
             && s.calls[c].pc.Finished? && (s.calls[c].pc.outcome.Created? || s.calls[c].pc.outcome.Replayed?)
             && s.calls[d].pc.Finished? && (s.calls[d].pc.outcome.Created? || s.calls[d].pc.outcome.Replayed?)
             && SameKey(RowOf(s.calls[c].input), RowOf(s.calls[d].input))
    ensures var s := Run(actions).value;
            && s.calls[c].pc.outcome.id == s.calls[d].pc.outcome.id
            && s.calls[c].input.hash == s.calls[d].input.hash
            && !(s.calls[c].pc.outcome.Created? && s.calls[d].pc.outcome.Created?)
  {
    RunKeeps(actions);
    var s := Run(actions).value;
    SuccessIsOwn(actions, c);
    SuccessIsOwn(actions, d);
    var i, j := s.calls[c].pc.outcome.id, s.calls[d].pc.outcome.id;
    assert SameKey(s.rows[i], s.rows[j]);
    assert i == j;
    if s.calls[c].pc.outcome.Created? && s.calls[d].pc.outcome.Created? {
      assert CreatedBy(s, c, i) && CreatedBy(s, d, i);
    }
  }

  /** Every row has exactly one call that created it. */
  lemma {:induction false} EveryRowHasOneCreator(actions: seq<Action>)
    requires Run(actions).Some?
    ensures OneCreator(Run(actions).value)
  {
    RunKeeps(actions);
  }

  /** Every 409 is witnessed by a committed row. */
  lemma {:induction false} ConflictsAreWitnessed(actions: seq<Action>, c: nat)
    requires Run(actions).Some? && c < |Run(actions).value.calls|
    ensures var s := Run(actions).value; var x := RowOf(s.calls[c].input);
            && (s.calls[c].pc == Finished(IdempotencyConflict) ==>
                  exists i :: 0 <= i < |s.rows| && SameKey(s.rows[i], x) && s.rows[i].hash != x.hash)
            && (s.calls[c].pc == Finished(ReferenceConflict) ==>
                  exists i :: 0 <= i < |s.rows| && SameReference(s.rows[i], x) && !SameKey(s.rows[i], x))
  {
    RunKeeps(actions);
    assert CallOk(Run(actions).value.rows, Run(actions).value.calls[c]);
  }

  /** The unique violation is rethrown only to calls whose reference is the empty string. */
  lemma {:induction false} RethrownOnlyIfEmpty(actions: seq<Action>, c: nat)
    requires Run(actions).Some? && c < |Run(actions).value.calls|
    ensures Run(actions).value.calls[c].pc == Finished(Rethrown) ==>
              Run(actions).value.calls[c].input.externalReference == Some("")
  {
    RunKeeps(actions);
    assert CallOk(Run(actions).value.rows, Run(actions).value.calls[c]);
  }

  /** Steps a call still has to take, at most. */
  function Left(pc: Pc): nat {
    match pc
    case ReadKey => 5
    case ReadReference => 4
    case Insert => 3
    case RaceKey => 2
    case RaceReference => 1
    case Finished(_) => 0
  }

  /** A running call can always step, and finishes after at most five steps of its own. */
  lemma CallsFinish(s: Sys, c: nat)
    requires Running(s, c)
    ensures Next(s, Step(c)).Some? && Left(Next(s, Step(c)).value.calls[c].pc) < Left(s.calls[c].pc) <= 5
  {}

  // -------------------------------------------- the rethrow is reachable for ""

  /** The same request under another idempotency key. */
  function Rival(i: Input): Input { i.(idempotencyKey := i.idempotencyKey + "'") }

  function RaceScript(i: Input): seq<Action> {
    [Arrive(Rival(i)), Step(0), Step(0), Arrive(i), Step(1), Step(1), Step(1)]
  }

  lemma {:induction false} RunPlus(actions: seq<Action>, a: Action)
    ensures Run(actions + [a]) == match Run(actions) case None => None case Some(s) => Next(s, a)
  {
    assert (actions + [a])[..|actions|] == actions;
  }

  lemma RivalStored(i: Input)
    requires i.externalReference == Some("")
    ensures Run([Arrive(Rival(i)), Step(0), Step(0)]).Some?
    ensures var s := Run([Arrive(Rival(i)), Step(0), Step(0)]).value; s.rows == [RowOf(Rival(i))] && |s.calls| == 1
  {
    RunPlus([], Arrive(Rival(i)));
    RunPlus([Arrive(Rival(i))], Step(0));
    RunPlus([Arrive(Rival(i)), Step(0)], Step(0));
    assert [] + [Arrive(Rival(i))] == [Arrive(Rival(i))];
    assert [Arrive(Rival(i))] + [Step(0)] == [Arrive(Rival(i)), Step(0)];
    assert [Arrive(Rival(i)), Step(0)] + [Step(0)] == [Arrive(Rival(i)), Step(0), Step(0)];
    assert [] + [RowOf(Rival(i))] == [RowOf(Rival(i))];
  }

  /** And to each such call it can happen: the reference is stored as the empty
      string, under the unique index, but both lookups by reference skip it. */
  lemma RethrownIfEmpty(i: Input)
    requires i.externalReference == Some("")
    ensures Run(RaceScript(i)).Some?
    ensures var s := Run(RaceScript(i)).value; |s.calls| == 2 && s.calls[1] == Call(i, Finished(Rethrown))
  {
    RivalStored(i);
    var a := [Arrive(Rival(i)), Step(0), Step(0)];
    RunPlus(a, Arrive(i));
    RunPlus(a + [Arrive(i)], Step(1));
    RunPlus(a + [Arrive(i)] + [Step(1)], Step(1));
    RunPlus(a + [Arrive(i)] + [Step(1)] + [Step(1)], Step(1));
    assert a + [Arrive(i)] + [Step(1)] + [Step(1)] + [Step(1)] == RaceScript(i);
    assert RowOf(Rival(i)).idempotencyKey != i.idempotencyKey;
  }

  // --------------------------------------------------------- one whole call

  /** The table and the outcome after a call, when other calls commit the rows
      `meanwhile` between its last read and its insert. */
  function Enqueued(rows: seq<Stored>, i: Input, meanwhile: seq<Stored>): (seq<Stored>, Outcome) {
    var x := RowOf(i);
    var k, r := FindKey(rows, x), FindReference(rows, x);
    if k < |rows| then (rows, if rows[k].hash == x.hash then Replayed(k) else IdempotencyConflict)
    else if Truthy(i) && r < |rows| && rows[r].idempotencyKey != x.idempotencyKey then (rows, ReferenceConflict)
    else
      var now := rows + meanwhile;
      var n := FindKey(now, x);
      if n < |now| then (now, if now[n].hash == x.hash then Replayed(n) else IdempotencyConflict)
      else if FindReference(now, x) == |now| then (now + [x], Created(|now|))
      else (now, if Truthy(i) then ReferenceConflict else Rethrown)
  }

  /** The table, changed in place. */
  class RequestTable {
    var rows: seq<Stored>

    constructor ()
      ensures rows == []
    {
      rows := [];
    }

    method FindOne(x: Stored, byKey: bool) returns (found: Option<nat>)
      ensures var i := if byKey then FindKey(rows, x) else FindReference(rows, x);
              found == if i < |rows| then Some(i) else None
    {
      var i := 0;
      while i < |rows|
        invariant 0 <= i <= |rows|
        invariant forall j :: 0 <= j < i ==> !(if byKey then SameKey(rows[j], x) else SameReference(rows[j], x))
      {
        if if byKey then SameKey(rows[i], x) else SameReference(rows[i], x) {
          return Some(i);
        }
        i := i + 1;
      }
      found := None;
    }

    /** Inserts the row unless one of the unique indexes refuses it. */
    method Create(x: Stored) returns (id: Option<nat>)
      modifies this
      ensures id == if Violates(old(rows), x) then None else Some(|old(rows)|)
      ensures rows == if Violates(old(rows), x) then old(rows) else old(rows) + [x]
    {
      var byKey := FindOne(x, true);
      var byReference := FindOne(x, false);
      if byKey.Some? || byReference.Some? {
        return None;
      }
      rows := rows + [x];
      id := Some(|rows| - 1);
    }

    method Enqueue(i: Input, meanwhile: seq<Stored>) returns (outcome: Outcome)
      modifies this
      ensures (rows, outcome) == Enqueued(old(rows), i, meanwhile)
    {
      var x := RowOf(i);
      var existing := FindOne(x, true);
      if existing.Some? {
        if rows[existing.value].hash != x.hash {
          return IdempotencyConflict;
        }
        return Replayed(existing.value);
      }
      if Truthy(i) {
        var byRef := FindOne(x, false);
        if byRef.Some? && rows[byRef.value].idempotencyKey != i.idempotencyKey {
          return ReferenceConflict;
        }
      }
      rows := rows + meanwhile;
      var request := Create(x);
      if request.Some? {
        return Created(request.value);
      }
      var raced := FindOne(x, true);
      if raced.Some? {
        if rows[raced.value].hash != x.hash {
          return IdempotencyConflict;
        }
        return Replayed(raced.value);
      }
      if Truthy(i) {
        var racedReference := FindOne(x, false);
        if racedReference.Some? {
          return ReferenceConflict;
        }
      }
      outcome := Rethrown;
    }
  }

  /** Stepping one call to its end, without interruption. */
  function Alone(rows: seq<Stored>, i: Input, pc: Pc): (seq<Stored>, Outcome)
    decreases Left(pc)
  {
    if pc.Finished? then (rows, pc.outcome)
    else
      var (rows', pc') := Advance(rows, i, pc);
      Alone(rows', i, pc')
  }

  /** The interleaved machine refines the method: steps without interruption give its result. */
  lemma AloneIsEnqueued(rows: seq<Stored>, i: Input)
    ensures Alone(rows, i, ReadKey) == Enqueued(rows, i, [])
  {
    var x := RowOf(i);
    assert rows + [] == rows;
    assert Alone(rows, i, Insert) == if Violates(rows, x) then Alone(rows, i, RaceKey)
                                     else (rows + [x], Created(|rows|));
    if FindKey(rows, x) == |rows| && FindReference(rows, x) < |rows| {
      assert Alone(rows, i, RaceKey) == (rows, if Truthy(i) then ReferenceConflict else Rethrown);
    }
  }

  /** A repeated call replays the row the first one created, whatever happened in between. */
  lemma RepeatReplays(rows: seq<Stored>, i: Input, meanwhile: seq<Stored>, later: seq<Stored>, more: seq<Stored>)
    requires Enqueued(rows, i, meanwhile).1.Created? && Enqueued(rows, i, meanwhile).0 <= later && Unique(later)
    ensures Enqueued(later, i, more) == (later, Replayed(Enqueued(rows, i, meanwhile).1.id))
  {
    var (table, outcome) := Enqueued(rows, i, meanwhile);
    assert later[outcome.id] == table[outcome.id] == RowOf(i);
    var k := FindKey(later, RowOf(i));
    assert k <= outcome.id;
  }

  /** A call that runs while others commit gives an error other than a 409 exactly
      when its reference is the empty string, is already stored under another key,
      and its own key is not. */
  lemma RethrowsExactlyWhen(rows: seq<Stored>, i: Input, meanwhile: seq<Stored>)
    ensures Enqueued(rows, i, meanwhile).1 == Rethrown <==>
            && i.externalReference == Some("")
            && !HasKey(rows + meanwhile, RowOf(i)) && HasReference(rows + meanwhile, RowOf(i))
  {
    var x, now := RowOf(i), rows + meanwhile;
    if FindKey(rows, x) < |rows| { assert SameKey(now[FindKey(rows, x)], x); }
    if FindKey(now, x) < |now| { assert HasKey(now, x); }
    if FindReference(now, x) < |now| { assert HasReference(now, x); }
  }
}
