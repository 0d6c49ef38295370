/** When the webhook outbox tells exactly what the histories say, over every
    disciplined run of the emission protocol. */
module OutboxTheorems {
  import opened Wrappers
  import opened RequestStates
  import opened EmissionDb
  import opened Protocol
  import opened ProtocolInvariant
  import opened ProtocolSteps
  import opened ProtocolTheorems
  import DocumentTotals
  import Outbox

  function Histories(s: Sys): seq<seq<HistoryEntry>> {
    seq(|s.db.rows|, r requires 0 <= r < |s.db.rows| => s.db.rows[r].history)
  }

  /** Events of every request are the notifiable entries of its history, in order,
      and every event has its initial deliveries. */
  ghost predicate OutboxAgrees(s: Sys) { Outbox.Mirrors(s.db.outbox, Histories(s)) }

  /** The step moves a request to a state to be told, and nobody listens. */
  ghost predicate Misses(s: Sys, a: Action)
    requires Next(s, a).Some?
  {
    && !Outbox.AnyActive(s.db.outbox.endpoints)
    && exists r: nat :: Announces(s, Next(s, a).value, r)
  }

  predicate Announces(s: Sys, s': Sys, r: nat) {
    r < |s.db.rows| && r < |s'.db.rows| && s'.db.rows[r].state != s.db.rows[r].state && Notifiable(s'.db.rows[r].state)
  }

  ghost predicate Tells(s: Sys, s': Sys, missed: bool) {
    Outbox.Tells(s.db.outbox, Histories(s), s'.db.outbox, Histories(s'), missed)
  }

  lemma LoudTells(s: Sys, s': Sys, r: nat, target: PublicState)
    requires Outbox.Covered(s.db.outbox, Histories(s)) && Loud(s, s', r, target)
    ensures Tells(s, s', Notifiable(target) && !Outbox.AnyActive(s.db.outbox.endpoints))
    ensures (exists k: nat :: Announces(s, s', k)) <==> Notifiable(target)
  {
    assert Notifiable(target) ==> Announces(s, s', r);
    var e := HistoryEntry(target, Some(s.db.rows[r].state), s.clock);
    Outbox.ChangeTold(s.db.outbox, Histories(s), r, e);
    assert Histories(s') == Histories(s)[r := Histories(s)[r] + [e]];
    assert s'.db.outbox == Outbox.Told(s.db.outbox, r, e);
  }

  lemma QuietTells(s: Sys, s': Sys)
    requires Outbox.Covered(s.db.outbox, Histories(s)) && Quiet(s, s')
    ensures Tells(s, s', false) && !exists k: nat :: Announces(s, s', k)
  {
    assert Histories(s') == Histories(s);
    Outbox.NothingTold(s.db.outbox, s'.db.outbox, Histories(s));
  }

  lemma EnqueueTells(s: Sys, payload: DocumentTotals.Payload, notes: bool)
    requires Outbox.Covered(s.db.outbox, Histories(s)) && Enqueued(s, payload, notes).Some?
    ensures Tells(s, Enqueued(s, payload, notes).value, false)
  {
    var s' := Enqueued(s, payload, notes).value;
    var h := s'.db.rows[|s.db.rows|].history;
    Outbox.RequestAdded(s.db.outbox, Histories(s), h);
    assert Histories(s') == Histories(s) + [h];
  }

  lemma ClaimTells(s: Sys, r: nat)
    requires Outbox.Covered(s.db.outbox, Histories(s)) && ClaimedBy(s, r).Some?
    ensures Tells(s, ClaimedBy(s, r).value, false)
  {
    assert Histories(ClaimedBy(s, r).value) == Histories(s);
  }

  lemma ChangeTells(s: Sys, a: Action)
    requires Inv(s, true) && Disciplined(s, a) && Next(s, a).Some? && Outbox.Covered(s.db.outbox, Histories(s))
    requires !a.Enqueue? && !a.Claim?
    ensures Tells(s, Next(s, a).value, Misses(s, a))
  {
    hide Next, Tells, Inv, Announces, Loud, Quiet, Disciplined;
    var loud, r, target := StepKind(s, a);
    if loud { LoudTells(s, Next(s, a).value, r, target); } else { QuietTells(s, Next(s, a).value); }
  }

  lemma StepTells(s: Sys, a: Action)
    requires Inv(s, true) && Disciplined(s, a) && Next(s, a).Some? && Outbox.Covered(s.db.outbox, Histories(s))
    ensures Tells(s, Next(s, a).value, Misses(s, a))
  {
    if a.Enqueue? { EnqueueTells(s, a.payload, a.allowNotes); }
    else if a.Claim? { ClaimTells(s, a.r); }
    else { ChangeTells(s, a); }
  }

  /** No change to be told found nobody listening. */
  ghost predicate NeverMissed(actions: seq<Action>)
    requires DisciplinedRun(actions)
  {
    actions == [] ||
    (NeverMissed(actions[..|actions| - 1]) && !Misses(Run(actions[..|actions| - 1]).value, actions[|actions| - 1]))
  }

  /** After any disciplined run the outbox agrees with the histories if and only if
      an active endpoint existed at every change to be told: a missed event is
      never made up for. */
  lemma {:induction false} AgreesExactlyWhenNothingMissed(actions: seq<Action>)
    requires DisciplinedRun(actions)
    ensures Run(actions).Some?
    ensures var s := Run(actions).value;
            && Outbox.Covered(s.db.outbox, Histories(s))
            && (NeverMissed(actions) ==> OutboxAgrees(s))
            && (!NeverMissed(actions) ==> Outbox.Missing(s.db.outbox, Histories(s)))
            && (OutboxAgrees(s) <==> NeverMissed(actions))
  {
    hide Next, Misses, Inv;
    if actions != [] {
      var init, a := actions[..|actions| - 1], actions[|actions| - 1];
      AgreesExactlyWhenNothingMissed(init);
      RunKeeps(init, true);
      StepTells(Run(init).value, a);
    }
    Outbox.MirrorsOrMissing(Run(actions).value.db.outbox, Histories(Run(actions).value));
  }

  /** An active endpoint existed before every step other than the registration of one. */
  predicate AlwaysListening(actions: seq<Action>)
    requires DisciplinedRun(actions)
  {
    actions == [] ||
    (AlwaysListening(actions[..|actions| - 1])
     && (Outbox.AnyActive(Run(actions[..|actions| - 1]).value.db.outbox.endpoints)
         || actions[|actions| - 1].RegisterEndpoint?))
  }

  lemma {:induction false} ListeningMissesNothing(actions: seq<Action>)
    requires DisciplinedRun(actions) && AlwaysListening(actions)
    ensures NeverMissed(actions)
  {
    if actions != [] {
      var s, a := Run(actions[..|actions| - 1]).value, actions[|actions| - 1];
      ListeningMissesNothing(actions[..|actions| - 1]);
      RegisteringAnnouncesNothing(s, a);
    }
  }

  lemma RegisteringAnnouncesNothing(s: Sys, a: Action)
    requires Next(s, a).Some? && (Outbox.AnyActive(s.db.outbox.endpoints) || a.RegisterEndpoint?)
    ensures !Misses(s, a)
  {}

  /** For a tenant that always has an active endpoint, the outbox mirrors the
      histories: same notifiable states in the same order, and one initial delivery
      per endpoint active and subscribed when the event was recorded. */
  lemma {:induction false} OutboxAgreesInEveryRun(actions: seq<Action>)
    requires DisciplinedRun(actions) && AlwaysListening(actions)
    ensures Run(actions).Some? && OutboxAgrees(Run(actions).value)
  {
    hide Run;
    ListeningMissesNothing(actions);
    AgreesExactlyWhenNothingMissed(actions);
  }
}
