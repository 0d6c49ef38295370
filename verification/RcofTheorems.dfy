/** What the receipts-report protocol guarantees over every disciplined run: its
    state changes, exactly when one is rejected, and what its outbox tells. */
module RcofTheorems {
  import opened Wrappers
  import opened RequestStates
  import opened RcofProtocol
  import opened RcofInvariant
  import opened RcofSteps
  import Outbox
  import Protocol

  // ------------------------------------------------------------ state changes

  /** The change a step asks for: request, copy, target, and the TrackID behind it. */
  datatype Change = Change(r: nat, copy: Row, target: PublicState, source: Option<nat>)

  function Retried(copy: Row): Row { copy.(attempts := copy.attempts + 1) }

  function Asks(s: Sys, a: Action): Option<Change> {
    match a
    case ApplySubmitted(p) =>
      if PassAt(s, p) && s.passes[p].pc.Linked? then
        Some(Change(s.passes[p].request, s.passes[p].pc.held, Submitted, None))
      else None
    case Conclude(p) =>
      if PassAt(s, p) && s.passes[p].pc.Concluding?
      then Some(Change(s.passes[p].request, s.passes[p].pc.copy, s.passes[p].pc.target, s.passes[p].pc.source))
      else None
    case Retry(p) =>
      if PassAt(s, p) && s.passes[p].pc.Erred?
        && Retried(s.passes[p].pc.copy).attempts >= EffectiveMax(Retried(s.passes[p].pc.copy))
      then Some(Change(s.passes[p].request, Retried(s.passes[p].pc.copy), PublicState.Failed, None)) else None
    case Fail(p) =>
      if PassAt(s, p) && s.passes[p].pc.Refused? then
        Some(Change(s.passes[p].request, s.passes[p].pc.copy, PublicState.Failed, None))
      else None
    case ApplyPoll(q) =>
      if PollAt(s, q) && s.polls[q].pc.Mapped?
      then Some(Change(s.polls[q].request, s.polls[q].copy, s.polls[q].pc.target, s.polls[q].pc.source)) else None
    case _ => None
  }

  /** What a change does to rows, outbox and rejections. */
  ghost predicate Carried(s: Sys, s': Sys, c: Change) {
    && c.r < |s.rows| && c.r < |s.settledBy|
    && var t := Apply(s, c.r, c.copy, c.target, c.source);
       s'.rows == t.rows && s'.outbox == t.outbox && s'.raises == t.raises
  }

  lemma AskedIsCarried(s: Sys, a: Action)
    requires Asks(s, a).Some? && Next(s, a).Some?
    ensures Carried(s, Next(s, a).value, Asks(s, a).value)
  {}

  /** A step that neither asks for a change, nor claims, nor accepts a request. */
  ghost predicate Quiet(s: Sys, s': Sys) {
    && |s'.rows| == |s.rows| && s'.raises == s.raises
    && s'.outbox.events == s.outbox.events && s'.outbox.deliveries == s.outbox.deliveries
    && (forall k :: 0 <= k < |s.rows| ==>
        s'.rows[k].state == s.rows[k].state && s'.rows[k].history == s.rows[k].history)
  }

  lemma RetryIsQuiet(s: Sys, p: nat)
    requires Inv(s, ANY) && Holds(s, p) && Retrying(s, p).Some? && Asks(s, Retry(p)).None?
    ensures Quiet(s, Retrying(s, p).value)
  {
    HolderFacts(s, p, ANY);
  }

  lemma OtherwiseQuiet(s: Sys, a: Action)
    requires Inv(s, ANY) && Disciplined(s, a) && Next(s, a).Some? && Asks(s, a).None? && !a.Enqueue? && !a.Claim?
    ensures Quiet(s, Next(s, a).value)
  {
    hide Inv;
    if a.Retry? { RetryIsQuiet(s, a.p); }
  }

  /** What is known of a requested change: a worker's leaves processing, a verdict's reaches a request in flight. */
  lemma ChangeFacts(s: Sys, a: Action, m: Mode)
    requires Inv(s, m) && Disciplined(s, a) && Asks(s, a).Some?
    ensures var c := Asks(s, a).value;
            && c.r < |s.rows| == |s.settledBy|
            && (if a.Conclude? || a.ApplyPoll? then
                  && InFlight(s.rows[c.r].state) && s.rows[c.r].rcofId.Some?
                  && Told(s, s.rows[c.r].rcofId.value, c.source, c.target, m)
                  && (Answer(s.rows[c.r].state) ==>
                      Told(s, s.rows[c.r].rcofId.value, s.settledBy[c.r], s.rows[c.r].state, m))
                else s.rows[c.r].state == Processing && (c.target == Submitted || c.target == PublicState.Failed))
  {
    if a.ApplyPoll? { PollFacts(s, a.q, m); } else { HolderFacts(s, PassOf(a).value, m); }
    assert RequestOk(s, Asks(s, a).value.r, m);
  }

  /** Every committed state change, the claim's included, is an edge of the table. */
  lemma ChangesAreEdges(s: Sys, a: Action, k: nat)
    requires Inv(s, ANY) && Disciplined(s, a) && Next(s, a).Some? && k < |s.rows|
    ensures k < |Next(s, a).value.rows| && IsTransitionAllowed(s.rows[k].state, Next(s, a).value.rows[k].state)
  {
    if Asks(s, a).Some? {
      ChangeFacts(s, a, ANY);
      AskedIsCarried(s, a);
      hide Next, Asks, Inv;
    } else if a.Claim? || a.Enqueue? {
    } else {
      OtherwiseQuiet(s, a);
      hide Next, Inv;
    }
  }

  /** Histories are paths of the table that end in the current state. */
  lemma {:induction false} HistoriesArePaths(actions: seq<Action>, r: nat)
    requires DisciplinedRun(actions) && Run(actions).Some? && r < |Run(actions).value.rows|
    ensures HistoryOk(Run(actions).value.rows[r])
  {
    hide Run, DisciplinedRun;
    DisciplinedRunKeeps(actions);
    assert RequestOk(Run(actions).value, r, ANY);
  }

  /** accepted, rejected and cancelled are absorbing. */
  lemma {:induction false} SettledForever(actions: seq<Action>, n: nat, r: nat)
    requires DisciplinedRun(actions) && n <= |actions|
    requires DisciplinedRun(actions[..n]) && Run(actions[..n]).Some? && r < |Run(actions[..n]).value.rows|
    requires Terminal(Run(actions[..n]).value.rows[r].state)
    ensures Run(actions).Some? && r < |Run(actions).value.rows|
    ensures Run(actions).value.rows[r].state == Run(actions[..n]).value.rows[r].state
  {
    hide Next, Inv;
    if n < |actions| {
      var init := actions[..|actions| - 1];
      assert init[..n] == actions[..n];
      SettledForever(init, n, r);
      DisciplinedRunKeeps(init);
      ChangesAreEdges(Run(init).value, actions[|actions| - 1], r);
    } else {
      assert actions[..n] == actions;
    }
  }

  // --------------------------------------------------------------- rejections

  /** A verdict brought to a request that another verdict settled. */
  predicate Contradicts(s: Sys, a: Action) {
    && (a.Conclude? || a.ApplyPoll?) && Asks(s, a).Some?
    && var c := Asks(s, a).value;
       c.r < |s.rows| && (s.rows[c.r].state == Accepted || s.rows[c.r].state == Rejected)
         && c.target != s.rows[c.r].state
  }

  /** A rejection: a settled request, and a verdict for another TrackID or an objection for the same one. */
  ghost predicate Conflict(e: Raise) {
    && (e.from == Accepted || e.from == Rejected) && Answer(e.to) && e.to != e.from
    && e.settledBy.Some? && e.source.Some? && (e.settledBy == e.source ==> e.to == Observed)
  }

  /** A step's transition is rejected if and only if it brings a verdict to a request
      that another verdict settled; and then the two verdicts are for different
      TrackIDs, or the one brought is an objection since settled. */
  lemma RejectedExactlyWhen(s: Sys, a: Action, m: Mode)
    requires Inv(s, m) && Disciplined(s, a) && Next(s, a).Some?
    ensures var s' := Next(s, a).value;
            && (if Contradicts(s, a)
                then && |s'.raises| == |s.raises| + 1 && s'.raises[..|s.raises|] == s.raises
                     && Conflict(s'.raises[|s.raises|])
                else s'.raises == s.raises)
            && (Contradicts(s, a) ==> m.revisable || !m.single)
  {
    if Asks(s, a).Some? {
      ChangeFacts(s, a, m);
      AskedIsCarried(s, a);
      hide Next, Inv;
    } else {
      RaisesOnlyByChange(s, a);
    }
  }

  lemma RaisesOnlyByChange(s: Sys, a: Action)
    requires Next(s, a).Some? && Asks(s, a).None?
    ensures Next(s, a).value.raises == s.raises
  {}

  ghost predicate AllConflicts(raises: seq<Raise>) { forall i :: 0 <= i < |raises| ==> Conflict(raises[i]) }

  lemma ConflictsExtend(old_: seq<Raise>, new_: seq<Raise>)
    requires AllConflicts(old_)
    requires new_ == old_ || (|new_| == |old_| + 1 && new_[..|old_|] == old_ && Conflict(new_[|old_|]))
    ensures AllConflicts(new_)
  {
    forall i | 0 <= i < |new_| ensures Conflict(new_[i]) {
      if i < |old_| { assert new_[i] == old_[i]; }
    }
  }

  /** In every disciplined run each rejected transition is such a conflict. */
  lemma {:induction false} OnlyConflictsRaise(actions: seq<Action>)
    requires DisciplinedRun(actions)
    ensures Run(actions).Some? && AllConflicts(Run(actions).value.raises)
  {
    hide Next, Inv, Contradicts, Conflict;
    if actions != [] {
      var init := actions[..|actions| - 1];
      OnlyConflictsRaise(init);
      DisciplinedRunKeeps(init);
      RejectedExactlyWhen(Run(init).value, actions[|actions| - 1], ANY);
      ConflictsExtend(Run(init).value.raises, Run(actions).value.raises);
    }
  }

  /** Verdicts final, and no TrackID recorded over another. */
  const FINAL := Mode(false, true)

  /** Then nothing is ever rejected. */
  lemma {:induction false} OneTrackNeverRaises(actions: seq<Action>)
    requires AdmittedRun(actions, FINAL)
    ensures Run(actions).Some? && Run(actions).value.raises == []
  {
    hide Next, Inv, Contradicts, Conflict;
    if actions != [] {
      var init, a := actions[..|actions| - 1], actions[|actions| - 1];
      OneTrackNeverRaises(init);
      RunKeeps(init, FINAL);
      assert Disciplined(Run(init).value, a);
      RejectedExactlyWhen(Run(init).value, a, FINAL);
    }
  }

  // ------------------------------------------- one request per date and sequence

  ghost predicate KeysDiffer(rows: seq<Row>) { forall i, j :: 0 <= i < j < |rows| ==> rows[i].key != rows[j].key }

  /** A pass that is sending found no TrackID, and nobody else records one on its submission. */
  predicate SendsUnsent(s: Sys, r: nat) {
    var pc := LatestPc(s, r);
    pc.Some? && (pc.value.Sending? || pc.value.Posted?) && pc.value.d < |s.subs| ==> s.subs[pc.value.d].track.None?
  }

  ghost predicate Alone(s: Sys) {
    KeysDiffer(s.rows) && forall r: nat :: r < |s.rows| ==> SendsUnsent(s, r)
  }

  /** The step accepts a request for a date and sequence already requested. */
  predicate Repeats(s: Sys, a: Action) {
    a.Enqueue? && exists r :: 0 <= r < |s.rows| && s.rows[r].key == a.key
  }

  lemma AloneNeverOverwrites(s: Sys, a: Action)
    requires Inv(s, ANY) && Alone(s) && Disciplined(s, a) && Next(s, a).Some?
    ensures !Overwrites(s, a)
  {
    if a.RecordTrack? && SubAt(s, a.p) {
      HolderFacts(s, a.p, ANY);
      assert SendsUnsent(s, s.passes[a.p].request);
    }
  }

  lemma KeysStay(s: Sys, a: Action)
    requires Inv(s, ANY) && KeysDiffer(s.rows) && Disciplined(s, a) && Next(s, a).Some? && !Repeats(s, a)
    ensures KeysDiffer(Next(s, a).value.rows)
  {
    if a.Enqueue? || a.Claim? {
    } else if Asks(s, a).Some? {
      ChangeKeepsKeys(s, a);
    } else {
      OtherKeepsKeys(s, a);
    }
  }

  /** The copy a change writes has the row's key and attempts, one more for the last retry. */
  lemma ChangeCopies(s: Sys, a: Action)
    requires Inv(s, ANY) && Disciplined(s, a) && Asks(s, a).Some?
    ensures var c := Asks(s, a).value;
            && c.r < |s.rows| && c.copy.key == s.rows[c.r].key && c.copy.maxAttempts == s.rows[c.r].maxAttempts
            && c.copy.attempts == s.rows[c.r].attempts + (if a.Retry? then 1 else 0)
            && (PassOf(a).Some? ==> c.r == s.passes[PassOf(a).value].request)
  {
    hide Inv;
    if a.ApplyPoll? { PollFacts(s, a.q, ANY); } else { HolderFacts(s, PassOf(a).value, ANY); }
  }

  lemma ChangeKeepsKeys(s: Sys, a: Action)
    requires Inv(s, ANY) && Disciplined(s, a) && Next(s, a).Some? && Asks(s, a).Some?
    ensures |Next(s, a).value.rows| == |s.rows|
    ensures forall k :: 0 <= k < |s.rows| ==> Next(s, a).value.rows[k].key == s.rows[k].key
  {
    hide Next, Inv, Asks;
    ChangeFacts(s, a, ANY);
    ChangeCopies(s, a);
    AskedIsCarried(s, a);
  }

  lemma OtherKeepsKeys(s: Sys, a: Action)
    requires Inv(s, ANY) && Disciplined(s, a) && Next(s, a).Some? && Asks(s, a).None? && !a.Enqueue? && !a.Claim?
    ensures |Next(s, a).value.rows| == |s.rows|
    ensures forall k :: 0 <= k < |s.rows| ==> Next(s, a).value.rows[k].key == s.rows[k].key
  {
    hide Inv;
    if a.Retry? { RetryKeepsKeys(s, a.p); hide Retrying; }
  }

  lemma RetryKeepsKeys(s: Sys, p: nat)
    requires Inv(s, ANY) && Holds(s, p) && Retrying(s, p).Some? && Asks(s, Retry(p)).None?
    ensures var s' := Retrying(s, p).value;
            |s'.rows| == |s.rows| && forall k :: 0 <= k < |s.rows| ==> s'.rows[k].key == s.rows[k].key
  {
    hide Inv;
    HolderFacts(s, p, ANY);
  }

  /** Tracks untouched, and no pass but `p` moved. */
  ghost predicate TracksStay(s: Sys, s': Sys) {
    |s'.subs| >= |s.subs| && forall d :: 0 <= d < |s.subs| ==> s'.subs[d].track == s.subs[d].track
  }

  lemma UnsentStays(s: Sys, s': Sys, k: nat)
    requires SendsUnsent(s, k) && TracksStay(s, s') && LatestPc(s', k) == LatestPc(s, k)
    requires LatestPc(s, k).Some? && (LatestPc(s, k).value.Sending? || LatestPc(s, k).value.Posted?) ==>
               LatestPc(s, k).value.d < |s.subs|
    ensures SendsUnsent(s', k)
  {}

  lemma SendingInRange(s: Sys, k: nat)
    requires Inv(s, ANY) && k < |s.rows|
    ensures var pc := LatestPc(s, k);
            pc.Some? && (pc.value.Sending? || pc.value.Posted?) ==>
              pc.value.d < |s.subs| && s.subs[pc.value.d].key == s.rows[k].key
  {
    assert RequestOk(s, k, ANY);
  }

  lemma PassMoves(s: Sys, a: Action)
    requires PassOf(a).Some? && Next(s, a).Some?
    ensures PassAt(s, PassOf(a).value)
    ensures var p, s' := PassOf(a).value, Next(s, a).value;
            && s'.leases == s.leases && p < |s'.passes|
            && s'.passes == s.passes[p := Pass(s.passes[p].request, s'.passes[p].pc)]
  {
    hide Find;
  }

  /** A pass's step moves only its own pass. */
  lemma OnlyOwnPass(s: Sys, a: Action, k: nat)
    requires Shape(s) && PassOf(a).Some? && Disciplined(s, a) && Next(s, a).Some? && k < |s.rows|
    ensures PassAt(s, PassOf(a).value)
    ensures var p, s' := PassOf(a).value, Next(s, a).value;
            && p < |s'.passes| && LatestPc(s', k) == if k == s.passes[p].request then Some(s'.passes[p].pc)
                                                     else LatestPc(s, k)
  {
    hide Next;
    PassMoves(s, a);
  }

  /** Only a lookup, a creation or a post leaves a pass about to send or record. */
  lemma OtherwiseNotSending(s: Sys, a: Action)
    requires PassOf(a).Some? && Next(s, a).Some? && !a.Lookup? && !a.Create? && !a.Post?
    ensures PassOf(a).value < |Next(s, a).value.passes|
    ensures var pc := Next(s, a).value.passes[PassOf(a).value].pc; !pc.Sending? && !pc.Posted?
  {}

  lemma InvShape(s: Sys)
    requires Inv(s, ANY)
    ensures Shape(s)
  {}

  lemma SendingUnsent(s: Sys, a: Action)
    requires Inv(s, ANY) && Alone(s) && (a.Lookup? || a.Create? || a.Post?) && Disciplined(s, a) && Next(s, a).Some?
    ensures var r := s.passes[a.p].request; r < |s.rows| && SendsUnsent(Next(s, a).value, r)
  {
    hide Inv;
    InvShape(s);
    var r := s.passes[a.p].request;
    OnlyOwnPass(s, a, r);
    SendingInRange(s, r);
    assert SendsUnsent(s, r);
  }

  lemma OwnUnsent(s: Sys, a: Action)
    requires Inv(s, ANY) && Alone(s) && PassOf(a).Some? && Disciplined(s, a) && Next(s, a).Some?
    ensures var r := s.passes[PassOf(a).value].request; r < |s.rows| && SendsUnsent(Next(s, a).value, r)
  {
    hide Inv, Next, Alone;
    InvShape(s);
    if a.Lookup? || a.Create? || a.Post? {
      SendingUnsent(s, a);
    } else {
      OnlyOwnPass(s, a, s.passes[PassOf(a).value].request);
      OtherwiseNotSending(s, a);
    }
  }

  lemma TracksStayUnless(s: Sys, a: Action)
    requires Next(s, a).Some? && !a.RecordTrack?
    ensures TracksStay(s, Next(s, a).value)
  {}

  lemma RecordKeepsUnsent(s: Sys, p: nat, k: nat)
    requires Inv(s, ANY) && Alone(s) && Holds(s, p) && TrackRecorded(s, p).Some? && k < |s.rows|
             && k != s.passes[p].request
    ensures SendsUnsent(TrackRecorded(s, p).value, k)
  {
    HolderFacts(s, p, ANY);
    SendingInRange(s, k);
    OnlyOwnPass(s, RecordTrack(p), k);
    assert SendsUnsent(s, k);
    assert s.rows[k].key != s.rows[s.passes[p].request].key;
    hide Inv;
  }

  lemma PassKeepsUnsent(s: Sys, a: Action, k: nat)
    requires Inv(s, ANY) && Alone(s) && PassOf(a).Some? && Disciplined(s, a) && Next(s, a).Some? && k < |s.rows|
    ensures SendsUnsent(Next(s, a).value, k)
  {
    OnlyOwnPass(s, a, k);
    if k == s.passes[PassOf(a).value].request {
      OwnUnsent(s, a);
    } else if a.RecordTrack? {
      RecordKeepsUnsent(s, a.p, k);
    } else {
      TracksStayUnless(s, a);
      SendingInRange(s, k);
      hide Next, Inv;
      assert SendsUnsent(s, k);
      UnsentStays(s, Next(s, a).value, k);
    }
  }

  lemma EnvironmentKeepsUnsent(s: Sys, a: Action, k: nat)
    requires Inv(s, ANY) && Alone(s) && PassOf(a).None? && Next(s, a).Some? && k < |Next(s, a).value.rows|
    ensures SendsUnsent(Next(s, a).value, k)
  {
    if k < |s.rows| {
      SendingInRange(s, k);
      assert SendsUnsent(s, k);
      TracksStayUnless(s, a);
    }
    hide Inv;
  }

  lemma AloneKeeps(s: Sys, a: Action)
    requires Inv(s, ANY) && Alone(s) && Disciplined(s, a) && Next(s, a).Some? && !Repeats(s, a)
    ensures Alone(Next(s, a).value)
  {
    KeysStay(s, a);
    if PassOf(a).Some? { SameRowsUnlessEnqueue(s, a); }
    hide Next, Inv;
    forall k: nat | k < |Next(s, a).value.rows| ensures SendsUnsent(Next(s, a).value, k) {
      if PassOf(a).Some? { PassKeepsUnsent(s, a, k); } else { EnvironmentKeepsUnsent(s, a, k); }
    }
  }

  lemma SameRowsUnlessEnqueue(s: Sys, a: Action)
    requires Next(s, a).Some? && PassOf(a).Some?
    ensures |Next(s, a).value.rows| == |s.rows|
  {}

  /** No date and sequence was requested twice. */
  ghost predicate NeverRepeated(actions: seq<Action>)
    requires DisciplinedRun(actions)
  {
    actions == [] ||
    (NeverRepeated(actions[..|actions| - 1]) && !Repeats(Run(actions[..|actions| - 1]).value, actions[|actions| - 1]))
  }

  /** No objection was settled. */
  ghost predicate NoRevision(actions: seq<Action>)
    requires DisciplinedRun(actions)
  {
    actions == [] ||
    (NoRevision(actions[..|actions| - 1]) && !Revises(Run(actions[..|actions| - 1]).value, actions[|actions| - 1]))
  }

  lemma {:induction false} AloneRuns(actions: seq<Action>)
    requires DisciplinedRun(actions) && NeverRepeated(actions)
    ensures Run(actions).Some? && Alone(Run(actions).value)
    ensures NoRevision(actions) ==> AdmittedRun(actions, FINAL)
  {
    hide Next, Inv, Alone, Repeats, Overwrites, Revises;
    if actions != [] {
      var init, a := actions[..|actions| - 1], actions[|actions| - 1];
      AloneRuns(init);
      DisciplinedRunKeeps(init);
      AloneNeverOverwrites(Run(init).value, a);
      AloneKeeps(Run(init).value, a);
    } else {
      StartAlone();
    }
  }

  lemma StartAlone()
    ensures Alone(START)
  {}

  /** With final verdicts, one request per date and sequence is enough: each
      submission is recorded under one TrackID only, and nothing is ever rejected. */
  lemma {:induction false} OneRequestPerDayNeverRaises(actions: seq<Action>)
    requires DisciplinedRun(actions) && NeverRepeated(actions) && NoRevision(actions)
    ensures Run(actions).Some? && Run(actions).value.raises == []
  {
    hide Run, Next, DisciplinedRun, NeverRepeated, NoRevision, AdmittedRun;
    AloneRuns(actions);
    OneTrackNeverRaises(actions);
  }

  // ------------------------------------------------------------------- outbox

  function Histories(s: Sys): seq<seq<HistoryEntry>> {
    seq(|s.rows|, r requires 0 <= r < |s.rows| => s.rows[r].history)
  }

  ghost predicate OutboxAgrees(s: Sys) { Outbox.Mirrors(s.outbox, Histories(s)) }

  predicate Announces(s: Sys, s': Sys, r: nat) {
    r < |s.rows| && r < |s'.rows| && s'.rows[r].state != s.rows[r].state && Notifiable(s'.rows[r].state)
  }

  /** The step moves a request to a state to be told, and nobody listens. */
  ghost predicate Misses(s: Sys, s': Sys) {
    !Outbox.AnyActive(s.outbox.endpoints) && exists r: nat :: Announces(s, s', r)
  }

  ghost predicate Tells(s: Sys, s': Sys) {
    Outbox.Tells(s.outbox, Histories(s), s'.outbox, Histories(s'), Misses(s, s'))
  }

  lemma ChangeTells(s: Sys, s': Sys, c: Change)
    requires Outbox.Covered(s.outbox, Histories(s)) && Carried(s, s', c)
    ensures Tells(s, s')
  {
    if Rejects(s, c.r, c.target) || s.rows[c.r].state == c.target {
      assert Histories(s') == Histories(s);
      Outbox.NothingTold(s.outbox, s'.outbox, Histories(s));
    } else {
      Outbox.ChangeTold(s.outbox, Histories(s), c.r, Entry(s, c.r, c.target));
      assert Histories(s') == Histories(s)[c.r := Histories(s)[c.r] + [Entry(s, c.r, c.target)]];
      assert Notifiable(c.target) ==> Announces(s, s', c.r);
      assert forall k: nat :: Announces(s, s', k) ==> k == c.r;
    }
  }

  lemma QuietTells(s: Sys, s': Sys)
    requires Outbox.Covered(s.outbox, Histories(s)) && Quiet(s, s')
    ensures Tells(s, s')
  {
    assert Histories(s') == Histories(s);
    Outbox.NothingTold(s.outbox, s'.outbox, Histories(s));
    assert forall k: nat :: !Announces(s, s', k);
  }

  lemma EnqueueTells(s: Sys, key: Key)
    requires Outbox.Covered(s.outbox, Histories(s))
    ensures Tells(s, Enqueued(s, key))
  {
    var s' := Enqueued(s, key);
    var h := s'.rows[|s.rows|].history;
    Outbox.RequestAdded(s.outbox, Histories(s), h);
    assert Histories(s') == Histories(s) + [h];
    assert forall k: nat :: !Announces(s, s', k);
  }

  lemma ClaimTells(s: Sys, r: nat)
    requires Outbox.Covered(s.outbox, Histories(s)) && ClaimedBy(s, r).Some?
    ensures Tells(s, ClaimedBy(s, r).value)
  {
    assert Histories(ClaimedBy(s, r).value) == Histories(s);
  }

  lemma StepTells(s: Sys, a: Action)
    requires Inv(s, ANY) && Disciplined(s, a) && Next(s, a).Some? && Outbox.Covered(s.outbox, Histories(s))
    ensures Tells(s, Next(s, a).value)
  {
    if a.Enqueue? {
      EnqueueTells(s, a.key);
    } else if a.Claim? {
      ClaimTells(s, a.r);
    } else {
      hide Next, Inv, Tells, Asks, Carried, Quiet;
      if Asks(s, a).Some? {
        AskedIsCarried(s, a);
        ChangeTells(s, Next(s, a).value, Asks(s, a).value);
      } else {
        OtherwiseQuiet(s, a);
        QuietTells(s, Next(s, a).value);
      }
    }
  }

  /** No change to be told found nobody listening. */
  ghost predicate NeverMissed(actions: seq<Action>)
    requires DisciplinedRun(actions)
  {
    actions == [] ||
    (var init := actions[..|actions| - 1];
     NeverMissed(init) && !Misses(Run(init).value, Next(Run(init).value, actions[|actions| - 1]).value))
  }

  /** After any disciplined run the outbox agrees with the histories of the report
      requests if and only if an active endpoint existed at every change to be told. */
  lemma {:induction false} AgreesExactlyWhenNothingMissed(actions: seq<Action>)
    requires DisciplinedRun(actions)
    ensures Run(actions).Some?
    ensures var s := Run(actions).value;
            && Outbox.Covered(s.outbox, Histories(s))
            && (NeverMissed(actions) ==> OutboxAgrees(s))
            && (!NeverMissed(actions) ==> Outbox.Missing(s.outbox, Histories(s)))
            && (OutboxAgrees(s) <==> NeverMissed(actions))
  {
    hide Next, Misses, Inv;
    if actions != [] {
      var init, a := actions[..|actions| - 1], actions[|actions| - 1];
      AgreesExactlyWhenNothingMissed(init);
      DisciplinedRunKeeps(init);
      StepTells(Run(init).value, a);
    }
    Outbox.MirrorsOrMissing(Run(actions).value.outbox, Histories(Run(actions).value));
  }
}
