/** Webhook deliveries: claims under a ten-minute lease, one attempt per claim,
    and what its outcome writes back. */
module Deliveries {
  import opened Wrappers
  import opened Outbox

  const LEASE_MS := 600_000

  /** How an attempt ends: the endpoint is gone, it answers (with a 2xx or not), or something throws. */
  datatype Reply = Gone | Answered(ok: bool) | Threw

  predicate Claimable(row: Delivery, now: int) {
    (row.status == Pending || row.status == Delivering) && row.nextAttemptAt <= now && row.attempt < row.maxAttempts
  }

  function Leased(row: Delivery, now: int): Delivery {
    row.(status := Delivering, nextAttemptAt := now + LEASE_MS)
  }

  function Wait(attempt: nat): (wait: int)
    requires attempt >= 1
    ensures wait >= 60_000
  {
    DELIVERY_BACKOFF_MS[if attempt - 1 < |DELIVERY_BACKOFF_MS| - 1 then attempt - 1 else |DELIVERY_BACKOFF_MS| - 1]
  }

  /** The row after the owner of `copy` wrote its outcome; a throw does not count as an attempt. */
  function Recorded(row: Delivery, copy: Delivery, reply: Reply, now: int): Delivery {
    match reply
    case Gone => row.(status := Undeliverable)
    case Threw => row.(status := Pending, nextAttemptAt := now + DELIVERY_BACKOFF_MS[0])
    case Answered(ok) =>
      var attempt := copy.attempt + 1;
      if ok then row.(attempt := attempt, status := Delivered)
      else row.(attempt := attempt, status := if attempt >= copy.maxAttempts then Dead else Pending,
                nextAttemptAt := now + Wait(attempt))
  }

  predicate Settled(row: Delivery) { row.status == Delivered || row.status == Undeliverable || row.status == Dead }

  // ------------------------------------------------------------- the machine

  datatype Worker = Worker(delivery: nat, copy: Delivery, over: bool)

  /** When and by whom an outcome was last written, and the wait it left. */
  datatype Release = Release(worker: nat, at: int, wait: int)

  /** Bookkeeping outside the code: the latest claim and its time, the last outcome
      written since, and how often the delivery was claimed, answered, hit by a
      throw, or claimed over a worker that had written nothing. */
  datatype Book = Book(lease: Option<nat>, claimedAt: int, released: Option<Release>,
                       claims: nat, answers: nat, throws: nat, lapses: nat)

  datatype Sys = Sys(rows: seq<Delivery>, clock: int, workers: seq<Worker>, books: seq<Book>)

  datatype Action = Emit(event: nat, endpoint: nat) | Tick(elapsed: nat) | Claim(d: nat) | Record(t: nat, reply: Reply)

  const EMPTY := Sys([], 0, [], [])

  predicate WorkerAt(s: Sys, t: nat) {
    t < |s.workers| && !s.workers[t].over && s.workers[t].delivery < |s.rows| && s.workers[t].delivery < |s.books|
  }

  predicate Lapsed(s: Sys, b: Book) {
    b.lease.Some? && b.lease.value < |s.workers| && !s.workers[b.lease.value].over
  }

  function Reclaimed(s: Sys, b: Book): Book {
    b.(lease := Some(|s.workers|), claimedAt := s.clock, released := None, claims := b.claims + 1,
       lapses := b.lapses + (if Lapsed(s, b) then 1 else 0))
  }

  function Claimed(s: Sys, d: nat): Option<Sys> {
    if d < |s.rows| && d < |s.books| && Claimable(s.rows[d], s.clock) then
      Some(s.(rows := s.rows[d := Leased(s.rows[d], s.clock)],
              workers := s.workers + [Worker(d, Leased(s.rows[d], s.clock), false)],
              books := s.books[d := Reclaimed(s, s.books[d])]))
    else None
  }

  function Written(s: Sys, t: nat, reply: Reply): Option<Sys> {
    if WorkerAt(s, t) then
      var d := s.workers[t].delivery;
      var row := Recorded(s.rows[d], s.workers[t].copy, reply, s.clock);
      var b := s.books[d];
      Some(s.(rows := s.rows[d := row],
              workers := s.workers[t := s.workers[t].(over := true)],
              books := s.books[d := b.(released := Some(Release(t, s.clock, row.nextAttemptAt - s.clock)),
                                       answers := b.answers + (if reply.Answered? then 1 else 0),
                                       throws := b.throws + (if reply.Threw? then 1 else 0))]))
    else None
  }

  /** Between its claim and its record a worker only talks to the endpoint; a crash is a worker that never records. */
  function Next(s: Sys, a: Action): Option<Sys> {
    match a
    case Emit(event, endpoint) =>
      Some(s.(rows := s.rows + [InitialDelivery(event, endpoint, s.clock)],
              books := s.books + [Book(None, 0, None, 0, 0, 0, 0)]))
    case Tick(elapsed) => Some(s.(clock := s.clock + elapsed))
    case Claim(d) => Claimed(s, d)
    case Record(t, reply) => Written(s, t, reply)
  }

  predicate Holds(s: Sys, t: nat) {
    t < |s.workers| && s.workers[t].delivery < |s.books| && s.books[s.workers[t].delivery].lease == Some(t)
  }

  /** Lease discipline: a worker writes its outcome only if nobody claimed the delivery after it. */
  predicate Disciplined(s: Sys, a: Action) { a.Record? ==> Holds(s, a.t) }

  function Run(actions: seq<Action>): Option<Sys> {
    if actions == [] then Some(EMPTY)
    else
      match Run(actions[..|actions| - 1])
      case None => None
      case Some(s) => Next(s, actions[|actions| - 1])
  }

  predicate DisciplinedRun(actions: seq<Action>) {
    actions == [] ||
    (DisciplinedRun(actions[..|actions| - 1])
     && Run(actions[..|actions| - 1]).Some?
     && Disciplined(Run(actions[..|actions| - 1]).value, actions[|actions| - 1])
     && Next(Run(actions[..|actions| - 1]).value, actions[|actions| - 1]).Some?)
  }

  // ---------------------------------------------------------------- every run

  /** What holds of a delivery in every run, disciplined or not. */
  predicate RowKept(row: Delivery, b: Book) {
    && row.maxAttempts == |DELIVERY_BACKOFF_MS|
    && (row.status == Delivering ==> b.lease.Some? && b.released.None? && row.nextAttemptAt == b.claimedAt + LEASE_MS)
    && (row.status == Pending && b.lease.Some? ==>
          b.released.Some? && b.released.value.wait >= 60_000
            && row.nextAttemptAt == b.released.value.at + b.released.value.wait)
  }

  predicate CopyKept(w: Worker) { w.copy.maxAttempts == |DELIVERY_BACKOFF_MS| && w.copy.attempt < w.copy.maxAttempts }

  ghost predicate Kept(s: Sys) {
    && |s.books| == |s.rows|
    && (forall t :: 0 <= t < |s.workers| ==> s.workers[t].delivery < |s.rows| && CopyKept(s.workers[t]))
    && (forall d :: 0 <= d < |s.books| ==> s.books[d].lease.Some? ==>
          s.books[d].lease.value < |s.workers| && s.workers[s.books[d].lease.value].delivery == d)
    && (forall d: nat :: d < |s.rows| ==> RowKept(s.rows[d], s.books[d]))
  }

  lemma StepKeeps(s: Sys, a: Action)
    requires Kept(s) && Next(s, a).Some?
    ensures Kept(Next(s, a).value)
  {
    var s' := Next(s, a).value;
    forall d: nat | d < |s'.rows| ensures RowKept(s'.rows[d], s'.books[d]) {
      if d < |s.rows| { assert RowKept(s.rows[d], s.books[d]); }
    }
  }

  lemma {:induction false} RunKeeps(actions: seq<Action>)
    requires Run(actions).Some?
    ensures Kept(Run(actions).value)
  {
    if actions != [] {
      RunKeeps(actions[..|actions| - 1]);
      StepKeeps(Run(actions[..|actions| - 1]).value, actions[|actions| - 1]);
    }
  }

  // --------------------------------------------------------------- absorption

  /** The status an outcome writes, whatever the row says by then. */
  function StatusAfter(copy: Delivery, reply: Reply): DeliveryStatus {
    match reply
    case Gone => Undeliverable
    case Threw => Pending
    case Answered(ok) => if ok then Delivered else if copy.attempt + 1 >= copy.maxAttempts then Dead else Pending
  }

  /** The step records, on delivery `d`, a throw or a failure of an attempt other than the last. */
  predicate Reopens(s: Sys, a: Action, d: nat) {
    && a.Record? && WorkerAt(s, a.t) && s.workers[a.t].delivery == d
    && (a.reply.Threw?
        || (a.reply == Answered(false) && s.workers[a.t].copy.attempt + 1 < s.workers[a.t].copy.maxAttempts))
  }

  /** In every state, disciplined or not, a step takes a settled delivery out of its
      settled states exactly when it records such an outcome on it; any other
      recorded outcome replaces one settled status by another. */
  lemma UnsettledExactlyWhen(s: Sys, a: Action, d: nat)
    requires Next(s, a).Some? && d < |s.rows| && Settled(s.rows[d])
    ensures var s' := Next(s, a).value;
            && d < |s'.rows|
            && (!Settled(s'.rows[d]) <==> Reopens(s, a, d))
            && (s'.rows[d].status != s.rows[d].status <==>
                  a.Record? && s.workers[a.t].delivery == d
                    && StatusAfter(s.workers[a.t].copy, a.reply) != s.rows[d].status)
  {}

  /** The state after the first `m` actions. */
  function At(actions: seq<Action>, m: nat): Option<Sys>
    requires m <= |actions|
  {
    Run(actions[..m])
  }

  lemma {:induction false} PrefixRuns(actions: seq<Action>, m: nat)
    requires Run(actions).Some? && m <= |actions|
    ensures At(actions, m).Some?
    ensures m < |actions| ==> At(actions, m + 1).Some? && At(actions, m + 1) == Next(At(actions, m).value, actions[m])
    decreases |actions|
  {
    if m < |actions| {
      var init := actions[..|actions| - 1];
      assert m < |init| ==> actions[..m + 1] == init[..m + 1];
      assert actions[..m] == init[..m];
      if m < |init| { PrefixRuns(init, m); } else { assert init[..m] == init && actions[..m + 1] == actions; }
    } else {
      assert actions[..m] == actions;
    }
  }

  ghost predicate SettledAt(actions: seq<Action>, m: nat, d: nat)
    requires m <= |actions|
  {
    At(actions, m).Some? && d < |At(actions, m).value.rows| && Settled(At(actions, m).value.rows[d])
  }

  /** The action at position `m` reopens the delivery. */
  ghost predicate ReopensAt(actions: seq<Action>, m: nat, d: nat)
    requires m < |actions|
  {
    At(actions, m).Some? && Reopens(At(actions, m).value, actions[m], d)
  }

  /** Along any run, disciplined or not, a delivery settled after `n` steps stays
      settled from there on if and only if none of the later steps reopens it. */
  lemma StaysSettledExactlyWhen(actions: seq<Action>, n: nat, d: nat)
    requires Run(actions).Some? && n <= |actions| && SettledAt(actions, n, d)
    ensures (forall m :: n <= m <= |actions| ==> SettledAt(actions, m, d))
            <==> (forall m :: n <= m < |actions| ==> !ReopensAt(actions, m, d))
  {
    hide Run, Next;
    if forall m :: n <= m <= |actions| ==> SettledAt(actions, m, d) {
      forall m | n <= m < |actions| ensures !ReopensAt(actions, m, d) {
        PrefixRuns(actions, m);
        assert SettledAt(actions, m, d) && SettledAt(actions, m + 1, d);
        UnsettledExactlyWhen(At(actions, m).value, actions[m], d);
      }
    }
    if forall m :: n <= m < |actions| ==> !ReopensAt(actions, m, d) {
      forall m | n <= m <= |actions| ensures SettledAt(actions, m, d) { SettledUpTo(actions, n, m, d); }
    }
  }

  lemma {:induction false} SettledUpTo(actions: seq<Action>, n: nat, m: nat, d: nat)
    requires Run(actions).Some? && n <= m <= |actions| && SettledAt(actions, n, d)
    requires forall k :: n <= k < |actions| ==> !ReopensAt(actions, k, d)
    ensures SettledAt(actions, m, d)
    decreases m
  {
    hide Run, Next;
    if n < m {
      SettledUpTo(actions, n, m - 1, d);
      PrefixRuns(actions, m - 1);
      assert !ReopensAt(actions, m - 1, d);
      UnsettledExactlyWhen(At(actions, m - 1).value, actions[m - 1], d);
    }
  }

  // ------------------------------------------------------------ attempts left

  /** Open rows have attempts left. */
  predicate Hopeful(row: Delivery) {
    row.status == Pending || row.status == Delivering ==> row.attempt < row.maxAttempts
  }

  /** The step records a throw on delivery `d` after its last attempt was used up. */
  predicate Strands(s: Sys, a: Action, d: nat) {
    && a.Record? && a.reply.Threw? && WorkerAt(s, a.t) && s.workers[a.t].delivery == d
    && s.rows[d].attempt >= s.rows[d].maxAttempts
  }

  /** In every state, disciplined or not, a step leaves an open delivery without
      attempts exactly when it records such a throw. The delivery then stays
      pending: no claim takes it at any time. */
  lemma StrandedExactlyWhen(s: Sys, a: Action, d: nat)
    requires Kept(s) && Next(s, a).Some? && d < |s.rows| && Hopeful(s.rows[d])
    ensures var s' := Next(s, a).value;
            && d < |s'.rows|
            && (!Hopeful(s'.rows[d]) <==> Strands(s, a, d))
            && (Strands(s, a, d) ==> s'.rows[d].status == Pending && forall now :: !Claimable(s'.rows[d], now))
  {
    assert RowKept(s.rows[d], s.books[d]);
  }

  ghost predicate HopefulAt(actions: seq<Action>, m: nat, d: nat)
    requires m <= |actions|
  {
    At(actions, m).Some? && d < |At(actions, m).value.rows| && Hopeful(At(actions, m).value.rows[d])
  }

  ghost predicate StrandsAt(actions: seq<Action>, m: nat, d: nat)
    requires m < |actions|
  {
    && At(actions, m).Some? && d < |At(actions, m).value.rows| && Strands(At(actions, m).value, actions[m], d)
  }

  /** Along any run an open delivery has attempts left at every point from `n` on if
      and only if no throw is recorded on it after its last attempt. */
  lemma AttemptsLeftExactlyWhen(actions: seq<Action>, n: nat, d: nat)
    requires Run(actions).Some? && n <= |actions| && HopefulAt(actions, n, d)
    ensures (forall m :: n <= m <= |actions| ==> HopefulAt(actions, m, d))
            <==> (forall m :: n <= m < |actions| ==> !StrandsAt(actions, m, d))
  {
    hide Run, Next;
    if forall m :: n <= m <= |actions| ==> HopefulAt(actions, m, d) {
      forall m | n <= m < |actions| ensures !StrandsAt(actions, m, d) {
        PrefixRuns(actions, m);
        assert HopefulAt(actions, m, d) && HopefulAt(actions, m + 1, d);
        RunKeeps(actions[..m]);
        StrandedExactlyWhen(At(actions, m).value, actions[m], d);
      }
    }
    if forall m :: n <= m < |actions| ==> !StrandsAt(actions, m, d) {
      forall m | n <= m <= |actions| ensures HopefulAt(actions, m, d) { HopefulUpTo(actions, n, m, d); }
    }
  }

  lemma {:induction false} HopefulUpTo(actions: seq<Action>, n: nat, m: nat, d: nat)
    requires Run(actions).Some? && n <= m <= |actions| && HopefulAt(actions, n, d)
    requires forall k :: n <= k < |actions| ==> !StrandsAt(actions, k, d)
    ensures HopefulAt(actions, m, d)
    decreases m
  {
    hide Run, Next;
    if n < m {
      HopefulUpTo(actions, n, m - 1, d);
      PrefixRuns(actions, m - 1);
      RunKeeps(actions[..m - 1]);
      assert !StrandsAt(actions, m - 1, d);
      StrandedExactlyWhen(At(actions, m - 1).value, actions[m - 1], d);
    }
  }

  // ----------------------------------------------------------------- re-claims

  /** In every run a delivery is claimed again only after its lease expired, if no
      outcome was written since its latest claim, or after the wait left by the last
      outcome written. */
  lemma {:induction false} ReclaimedOnlyWhenDue(actions: seq<Action>, d: nat)
    requires Run(actions).Some? && Next(Run(actions).value, Claim(d)).Some? && Run(actions).value.books[d].lease.Some?
    ensures var s := Run(actions).value; var b := s.books[d];
            if b.released.None? then s.clock >= b.claimedAt + LEASE_MS
            else b.released.value.wait >= 60_000 && s.clock >= b.released.value.at + b.released.value.wait
  {
    RunKeeps(actions);
    assert RowKept(Run(actions).value.rows[d], Run(actions).value.books[d]);
  }

  // ---------------------------------------------------------- disciplined runs

  /** One delivery, its book, and its latest worker if any, under lease discipline. */
  predicate RowOk(row: Delivery, b: Book, latest: Option<Worker>) {
    && row.attempt == b.answers <= row.maxAttempts == |DELIVERY_BACKOFF_MS|
    && (!Settled(row) ==> row.attempt < row.maxAttempts)
    && (row.status == Delivering <==> latest.Some? && !latest.value.over)
    && (row.status == Delivering ==> latest.value.copy == row)
    && (b.released.Some? ==> b.lease == Some(b.released.value.worker))
    && b.claims == b.answers + b.throws + b.lapses
       + (if row.status == Delivering || row.status == Undeliverable then 1 else 0)
    && (row.status == Undeliverable ==> row.attempt < row.maxAttempts)
  }

  function Latest(s: Sys, d: nat): Option<Worker>
    requires d < |s.books|
  {
    if s.books[d].lease.Some? && s.books[d].lease.value < |s.workers| then Some(s.workers[s.books[d].lease.value])
    else None
  }

  ghost predicate Inv(s: Sys) {
    Kept(s) && forall d: nat :: d < |s.rows| ==> RowOk(s.rows[d], s.books[d], Latest(s, d))
  }

  lemma DisciplinedStepKeeps(s: Sys, a: Action)
    requires Inv(s) && Disciplined(s, a) && Next(s, a).Some?
    ensures Inv(Next(s, a).value)
  {
    var s' := Next(s, a).value;
    StepKeeps(s, a);
    forall d: nat | d < |s'.rows| ensures RowOk(s'.rows[d], s'.books[d], Latest(s', d)) {
      if d < |s.rows| { assert RowOk(s.rows[d], s.books[d], Latest(s, d)); }
    }
  }

  lemma {:induction false} DisciplinedRunKeeps(actions: seq<Action>)
    requires DisciplinedRun(actions)
    ensures Run(actions).Some? && Inv(Run(actions).value)
  {
    if actions != [] {
      DisciplinedRunKeeps(actions[..|actions| - 1]);
      DisciplinedStepKeeps(Run(actions[..|actions| - 1]).value, actions[|actions| - 1]);
    }
  }

  /** Under lease discipline no step reopens a settled delivery or strands an open
      one: delivered, failed and dead rows never change again. */
  lemma DisciplineSettles(s: Sys, a: Action, d: nat)
    requires Inv(s) && Disciplined(s, a) && Next(s, a).Some? && d < |s.rows|
    ensures Settled(s.rows[d]) ==>
              !Reopens(s, a, d) && d < |Next(s, a).value.rows| && Next(s, a).value.rows[d] == s.rows[d]
    ensures !Strands(s, a, d)
  {
    assert RowOk(s.rows[d], s.books[d], Latest(s, d));
  }

  /** delivered, failed and dead are absorbing in every disciplined run: the row never changes again. */
  lemma {:induction false} SettledForever(actions: seq<Action>, n: nat, d: nat)
    requires DisciplinedRun(actions) && n <= |actions| && DisciplinedRun(actions[..n])
    requires Run(actions[..n]).Some? && d < |Run(actions[..n]).value.rows| && Settled(Run(actions[..n]).value.rows[d])
    ensures Run(actions).Some? && d < |Run(actions).value.rows|
    ensures Run(actions).value.rows[d] == Run(actions[..n]).value.rows[d]
  {
    if n < |actions| {
      var init := actions[..|actions| - 1];
      assert init[..n] == actions[..n];
      SettledForever(init, n, d);
      DisciplinedRunKeeps(init);
      DisciplineSettles(Run(init).value, actions[|actions| - 1], d);
    } else {
      assert actions[..n] == actions;
    }
  }

  /** Pending and delivering rows have attempts left, the attempt counter is the
      number of recorded answers, and claims are at most the maximum plus the throws
      plus the claims over a worker that had written nothing. */
  lemma {:induction false} AttemptsLeft(actions: seq<Action>, d: nat)
    requires DisciplinedRun(actions) && Run(actions).Some? && d < |Run(actions).value.rows|
    ensures var s := Run(actions).value;
            && d < |s.books| && s.rows[d].attempt == s.books[d].answers <= s.rows[d].maxAttempts
            && Hopeful(s.rows[d])
            && s.books[d].claims <= s.rows[d].maxAttempts + s.books[d].throws + s.books[d].lapses
            && (s.books[d].released.Some? ==> s.books[d].lease == Some(s.books[d].released.value.worker))
  {
    DisciplinedRunKeeps(actions);
    assert RowOk(Run(actions).value.rows[d], Run(actions).value.books[d], Latest(Run(actions).value, d));
  }

  /** A recorded answer settles the delivery or uses up one attempt and waits its
      backoff; the row it writes on is the one the worker claimed. */
  lemma AnswerProgresses(s: Sys, t: nat, ok: bool)
    requires Inv(s) && Holds(s, t) && Next(s, Record(t, Answered(ok))).Some?
    ensures var d := s.workers[t].delivery; var row, row' := s.rows[d], Next(s, Record(t, Answered(ok))).value.rows[d];
            && row == s.workers[t].copy
            && row'.maxAttempts - row'.attempt == row.maxAttempts - row.attempt - 1
            && (if ok then row'.status == Delivered
                else if row'.attempt == row'.maxAttempts then row'.status == Dead
                else row'.status == Pending && row'.nextAttemptAt >= s.clock + 60_000)
  {
    assert RowOk(s.rows[s.workers[t].delivery], s.books[s.workers[t].delivery], Latest(s, s.workers[t].delivery));
  }

  // ------------------------------------------------- discipline cannot be dropped

  lemma RunPlus(actions: seq<Action>, a: Action) returns (longer: seq<Action>)
    requires Run(actions).Some? && Next(Run(actions).value, a).Some?
    ensures longer == actions + [a] && Run(longer) == Next(Run(actions).value, a)
  {
    longer := actions + [a];
    assert longer[..|actions|] == actions;
  }

  /** One delivery with `attempt` answers, whose first worker wrote nothing yet. */
  predicate Waiting(s: Sys, attempt: nat) {
    && |s.rows| == 1 && |s.books| == 1 && |s.workers| >= 1
    && s.workers[0].delivery == 0 && !s.workers[0].over && s.workers[0].copy.attempt == 0
    && s.workers[0].copy.maxAttempts == 6
    && s.rows[0].maxAttempts == 6 && s.rows[0].attempt == attempt
  }

  lemma FirstWorker(event: nat, endpoint: nat) returns (actions: seq<Action>)
    ensures Run(actions).Some? && Waiting(Run(actions).value, 0) && Run(actions).value.rows[0].status == Delivering
  {
    actions := RunPlus([], Emit(event, endpoint));
    actions := RunPlus(actions, Claim(0));
  }

  /** A later worker claims the delivery and records its answer. */
  lemma LaterAnswer(actions: seq<Action>, attempt: nat, ok: bool) returns (longer: seq<Action>)
    requires Run(actions).Some? && Waiting(Run(actions).value, attempt) && attempt < 6
    requires Run(actions).value.rows[0].status == Delivering || Run(actions).value.rows[0].status == Pending
    ensures Run(longer).Some? && Waiting(Run(longer).value, attempt + 1)
    ensures Run(longer).value.rows[0].status == if ok then Delivered else if attempt + 1 == 6 then Dead else Pending
    ensures !Holds(Run(longer).value, 0)
  {
    hide Run;
    var s := Run(actions).value;
    var due := RunPlus(actions,
                       Tick(if s.rows[0].nextAttemptAt > s.clock then s.rows[0].nextAttemptAt - s.clock else 0));
    var claimed := RunPlus(due, Claim(0));
    longer := RunPlus(claimed, Record(|s.workers|, Answered(ok)));
  }

  lemma {:induction false} LaterFailures(actions: seq<Action>, attempt: nat) returns (longer: seq<Action>)
    requires Run(actions).Some? && Waiting(Run(actions).value, attempt) && attempt < 6
    requires Run(actions).value.rows[0].status == Delivering || Run(actions).value.rows[0].status == Pending
    ensures Run(longer).Some? && Waiting(Run(longer).value, 6) && Run(longer).value.rows[0].status == Dead
    decreases 6 - attempt
  {
    longer := LaterAnswer(actions, attempt, false);
    if attempt + 1 < 6 { longer := LaterFailures(longer, attempt + 1); }
  }

  /** A delivered row becomes pending again when the slow first worker records its failure. */
  lemma DeliveredReopens(event: nat, endpoint: nat) returns (actions: seq<Action>)
    ensures Run(actions).Some? && |Run(actions).value.rows| == 1 && Run(actions).value.rows[0].status == Delivered
    ensures var next := Next(Run(actions).value, Record(0, Answered(false)));
            next.Some? && next.value.rows[0].status == Pending
  {
    var first := FirstWorker(event, endpoint);
    actions := LaterAnswer(first, 0, true);
  }

  /** A dead row becomes pending for ever, with no attempt left, when it throws. */
  lemma DeadIsStranded(event: nat, endpoint: nat) returns (actions: seq<Action>)
    ensures Run(actions).Some? && |Run(actions).value.rows| == 1 && Run(actions).value.rows[0].status == Dead
    ensures var next := Next(Run(actions).value, Record(0, Threw));
            && next.Some? && next.value.rows[0].status == Pending
            && next.value.rows[0].attempt == next.value.rows[0].maxAttempts
            && forall now :: !Claimable(next.value.rows[0], now)
  {
    var first := FirstWorker(event, endpoint);
    actions := LaterFailures(first, 0);
  }

  // ------------------------------------------------------ the worker's loop

  /** The table after a worker attempted its claimed deliveries in turn; `replies` is what happened to each. */
  function Attempted(rows: seq<Delivery>, claimed: seq<(nat, Delivery)>, replies: seq<Reply>, now: int): seq<Delivery>
    requires |replies| == |claimed| && forall i :: 0 <= i < |claimed| ==> claimed[i].0 < |rows|
    ensures |Attempted(rows, claimed, replies, now)| == |rows|
  {
    if claimed == [] then rows
    else
      var n := |claimed| - 1;
      var before := Attempted(rows, claimed[..n], replies[..n], now);
      var d := claimed[n].0;
      before[d := Recorded(before[d], claimed[n].1, replies[n], now)]
  }

  function Successes(replies: seq<Reply>): nat {
    if replies == [] then 0
    else Successes(replies[..|replies| - 1]) + (if replies[|replies| - 1] == Answered(true) then 1 else 0)
  }

  class DeliveryTable {
    var rows: seq<Delivery>

    constructor ()
      ensures rows == []
    {
      rows := [];
    }

    /** One attempt; `ok` as the loop counts it. */
    method AttemptDelivery(d: nat, copy: Delivery, reply: Reply, now: int) returns (ok: bool)
      requires d < |rows|
      modifies this
      ensures rows == old(rows)[d := Recorded(old(rows)[d], copy, reply, now)]
      ensures ok <==> reply == Answered(true)
    {
      var row := rows[d];
      ok := false;
      if reply.Gone? {
        row := row.(status := Undeliverable);
      } else if reply.Threw? {
        row := row.(status := Pending, nextAttemptAt := now + DELIVERY_BACKOFF_MS[0]);
      } else {
        var attempt := copy.attempt + 1;
        if reply.ok {
          row := row.(attempt := attempt, status := Delivered);
          ok := true;
        } else {
          var exhausted := attempt >= copy.maxAttempts;
          row := row.(attempt := attempt, status := if exhausted then Dead else Pending,
                      nextAttemptAt := now + Wait(attempt));
        }
      }
      rows := rows[d := row];
    }

    method DeliverClaimed(claimed: seq<(nat, Delivery)>, replies: seq<Reply>, now: int)
      returns (attempted: nat, delivered: nat, failed: nat)
      requires |replies| == |claimed| && forall i :: 0 <= i < |claimed| ==> claimed[i].0 < |rows|
      modifies this
      ensures rows == Attempted(old(rows), claimed, replies, now)
      ensures attempted == |claimed| && delivered == Successes(replies) && delivered + failed == attempted
    {
      attempted, delivered, failed := 0, 0, 0;
      ghost var before := rows;
      for i := 0 to |claimed|
        invariant attempted == i && delivered == Successes(replies[..i]) && delivered + failed == attempted
        invariant rows == Attempted(before, claimed[..i], replies[..i], now)
      {
        assert claimed[..i + 1][..i] == claimed[..i] && replies[..i + 1][..i] == replies[..i];
        attempted := attempted + 1;
        var ok := AttemptDelivery(claimed[i].0, claimed[i].1, replies[i], now);
        if ok { delivered := delivered + 1; } else { failed := failed + 1; }
      }
      assert claimed[..|claimed|] == claimed && replies[..|replies|] == replies;
    }
  }

  /** Deliveries the worker did not claim are untouched by its loop. */
  lemma {:induction false} OthersUntouched(rows: seq<Delivery>, claimed: seq<(nat, Delivery)>, replies: seq<Reply>,
                                           now: int, d: nat)
    requires |replies| == |claimed| && forall i :: 0 <= i < |claimed| ==> claimed[i].0 < |rows|
    requires d < |rows| && forall i :: 0 <= i < |claimed| ==> claimed[i].0 != d
    ensures Attempted(rows, claimed, replies, now)[d] == rows[d]
  {
    if claimed != [] { OthersUntouched(rows, claimed[..|claimed| - 1], replies[..|replies| - 1], now, d); }
  }

  /** A claimed batch names each delivery once: each ends with the record of its own attempt. */
  lemma {:induction false} EachOwnRecord(rows: seq<Delivery>, claimed: seq<(nat, Delivery)>, replies: seq<Reply>,
                                         now: int, i: nat)
    requires |replies| == |claimed| && forall j :: 0 <= j < |claimed| ==> claimed[j].0 < |rows|
    requires i < |claimed| && forall j, k :: 0 <= j < k < |claimed| ==> claimed[j].0 != claimed[k].0
    ensures Attempted(rows, claimed, replies, now)[claimed[i].0]
            == Recorded(rows[claimed[i].0], claimed[i].1, replies[i], now)
  {
    var n := |claimed| - 1;
    if i < n {
      EachOwnRecord(rows, claimed[..n], replies[..n], now, i);
    } else {
      OthersUntouched(rows, claimed[..n], replies[..n], now, claimed[n].0);
    }
  }
}
