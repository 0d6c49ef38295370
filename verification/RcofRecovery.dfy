/** One uninterrupted pass over a report request, step by step in the protocol,
    leaves exactly what `RcofProcessor` leaves; and from every reachable state such
    a pass settles the request it claims or schedules its retry. */
module RcofRecovery {
  import opened Wrappers
  import opened RequestStates
  import opened RcofProtocol
  import opened RcofInvariant
  import opened RcofSteps
  import opened RcofProcessor
  import opened RcofTermination
  import EmissionDb
  import Outbox
  import Protocol

  function TabOf(s: Sys): Tab { Tab(s.rows, s.subs, s.outbox) }

  predicate Ended(pc: Pc) { pc.Done? || pc.Crashed? }

  /** What an uninterrupted pass does next. */
  function NextStep(pc: Pc, p: nat, env: Env): Action
    requires !Ended(pc)
  {
    match pc
    case Claimed(_) => if !env.dateOk then Refuse(p) else if !env.lookupOk then Fault(p) else Lookup(p)
    case Absent(_) => if env.day.NoReport? then Refuse(p) else if env.day.Broken? then Fault(p) else Create(p)
    case Sending(_, _) => if env.sent.Lost? && !env.sent.posted then FailPost(p, env.sent.written) else Post(p)
    case Posted(_, _, _) => if env.sent.Lost? then FailPost(p, env.sent.written) else RecordTrack(p)
    case Executed(_, _, _) => if env.linkOk then Link(p) else Fault(p)
    case Linked(_, _, _) => if env.submitOk then ApplySubmitted(p) else Fault(p)
    case Refused(_) => Fail(p)
    case Erred(_) => Retry(p)
    case Concluding(_, _, _) => Conclude(p)
  }

  /** Steps left, at most. */
  function Rank(pc: Pc): nat {
    match pc
    case Claimed(_) => 8
    case Absent(_) => 7
    case Sending(_, _) => 6
    case Posted(_, _, _) => 5
    case Executed(_, _, _) => 4
    case Linked(_, _, _) => 3
    case Refused(_) => 1
    case Erred(_) => 1
    case Concluding(_, _, _) => 1
    case Done => 0
    case Crashed => 0
  }

  /** `track` is the TrackID the pass gets, or got, if it posts; nobody came between its last two steps. */
  predicate Fits(s: Sys, p: nat, track: nat, env: Env)
    requires PassAt(s, p)
  {
    match s.passes[p].pc
    case Claimed(_) => track == |s.verdicts|
    case Absent(_) => track == |s.verdicts|
    case Sending(_, d) => track == |s.verdicts| && d < |s.subs|
    case Posted(_, d, t) => t == track && d < |s.subs| && (env.sent.Lost? ==> env.sent.posted)
    case Concluding(_, target, _) => s.rows[s.passes[p].request].state == Submitted && Answer(target)
    case Crashed => false
    case _ => true
  }

  /** The tables the pass will leave, told from where it stands. */
  function Rest(s: Sys, p: nat, track: nat, env: Env): Tab
    requires PassAt(s, p) && Fits(s, p, track, env)
  {
    var r := s.passes[p].request;
    match s.passes[p].pc
    case Claimed(copy) => ProcessedTab(TabOf(s), r, copy, track, s.clock, env)
    case Absent(copy) => BuiltTab(TabOf(s), r, copy, track, s.clock, env)
    case Sending(copy, d) => SentTab(TabOf(s), r, copy, d, track, s.clock, env)
    case Posted(copy, d, _) => SentTab(TabOf(s), r, copy, d, track, s.clock, env)
    case Executed(copy, d, sub) => LinkedTab(TabOf(s), r, copy, d, sub, s.clock, env)
    case Linked(copy, held, sub) => SubmittedTab(TabOf(s), r, copy, held, sub, s.clock, env)
    case Refused(copy) => ApplyTab(TabOf(s), r, copy, PublicState.Failed, s.clock)
    case Erred(copy) => RetryTab(TabOf(s), r, copy, s.clock)
    case Concluding(copy, target, _) => ApplyTab(TabOf(s), r, copy, target, s.clock)
    case Done => TabOf(s)
  }

  /** Whether the pass posts from here on, and so uses a TrackID. */
  predicate WillPost(s: Sys, p: nat, env: Env)
    requires PassAt(s, p)
  {
    var posts := env.sent.Lost? ==> env.sent.posted;
    match s.passes[p].pc
    case Claimed(copy) => env.dateOk && env.lookupOk && PostsFor(s, copy.key, env)
    case Absent(copy) => env.day.Fine? && Find(s.subs, copy.key) == |s.subs| && posts
    case Sending(_, _) => posts
    case _ => false
  }

  predicate PostsFor(s: Sys, key: Key, env: Env) {
    var d := Find(s.subs, key);
    && (env.sent.Lost? ==> env.sent.posted)
    && if d == |s.subs| then env.day.Fine? else s.subs[d].track.None? && !Answer(s.subs[d].status)
  }

  ghost predicate Along(s: Sys, p: nat, track: nat, env: Env) {
    Inv(s, ANY) && Holds(s, p) && PassAt(s, p) && Fits(s, p, track, env)
  }

  /** What one step preserves: the outcome foretold, the clock, the claim, the posts to come. */
  ghost predicate Foretold(s: Sys, next: Option<Sys>, p: nat, track: nat, env: Env)
    requires PassAt(s, p) && Fits(s, p, track, env)
  {
    next.Some? &&
    var s' := next.value;
    && PassAt(s', p) && s'.passes[p].request == s.passes[p].request && Fits(s', p, track, env)
    && Rank(s'.passes[p].pc) < Rank(s.passes[p].pc)
    && s'.clock == s.clock && s'.leases == s.leases
    && Rest(s', p, track, env) == Rest(s, p, track, env)
    && |s'.verdicts| + (if WillPost(s', p, env) then 1 else 0) == |s.verdicts| + (if WillPost(s, p, env) then 1 else 0)
  }

  lemma LookupStep(s: Sys, p: nat, track: nat, env: Env)
    requires Along(s, p, track, env) && s.passes[p].pc.Claimed?
    ensures Foretold(s, Next(s, NextStep(s.passes[p].pc, p, env)), p, track, env)
  {
    hide Inv, ApplyTab, RetryTab, LinkedTab, SentTab, SubmittedTab;
    HolderFacts(s, p, ANY);
  }

  lemma CreateStep(s: Sys, p: nat, track: nat, env: Env)
    requires Along(s, p, track, env) && s.passes[p].pc.Absent?
    ensures Foretold(s, Next(s, NextStep(s.passes[p].pc, p, env)), p, track, env)
  {
    hide Inv, ApplyTab, RetryTab, LinkedTab, SentTab, SubmittedTab, ProcessedTab;
    HolderFacts(s, p, ANY);
  }

  lemma SendStep(s: Sys, p: nat, track: nat, env: Env)
    requires Along(s, p, track, env) && (s.passes[p].pc.Sending? || s.passes[p].pc.Posted?)
    ensures Foretold(s, Next(s, NextStep(s.passes[p].pc, p, env)), p, track, env)
  {
    hide Inv, ApplyTab, RetryTab, LinkedTab, SubmittedTab, ProcessedTab, BuiltTab;
    HolderFacts(s, p, ANY);
    assert TabOf(s).(subs := s.subs) == TabOf(s);
  }

  lemma LinkStep(s: Sys, p: nat, track: nat, env: Env)
    requires Along(s, p, track, env) && s.passes[p].pc.Executed?
    ensures Foretold(s, Next(s, NextStep(s.passes[p].pc, p, env)), p, track, env)
  {
    hide Inv, ApplyTab, RetryTab, SubmittedTab, ProcessedTab, BuiltTab, SentTab;
    HolderFacts(s, p, ANY);
  }

  lemma SubmitStep(s: Sys, p: nat, track: nat, env: Env)
    requires Along(s, p, track, env) && s.passes[p].pc.Linked?
    ensures Foretold(s, Next(s, NextStep(s.passes[p].pc, p, env)), p, track, env)
  {
    hide Inv, RetryTab, ProcessedTab, BuiltTab, SentTab, LinkedTab;
    HolderFacts(s, p, ANY);
  }

  lemma FailStep(s: Sys, p: nat, track: nat, env: Env)
    requires Along(s, p, track, env) && s.passes[p].pc.Refused?
    ensures Foretold(s, Next(s, NextStep(s.passes[p].pc, p, env)), p, track, env)
  {
    hide Inv, ProcessedTab, BuiltTab, SentTab, LinkedTab, SubmittedTab, RetryTab;
    HolderFacts(s, p, ANY);
  }

  lemma RetryStep(s: Sys, p: nat, track: nat, env: Env)
    requires Along(s, p, track, env) && s.passes[p].pc.Erred?
    ensures Foretold(s, Next(s, NextStep(s.passes[p].pc, p, env)), p, track, env)
  {
    hide Inv, ProcessedTab, BuiltTab, SentTab, LinkedTab, SubmittedTab;
    HolderFacts(s, p, ANY);
  }

  lemma ConcludeStep(s: Sys, p: nat, track: nat, env: Env)
    requires Along(s, p, track, env) && s.passes[p].pc.Concluding?
    ensures Foretold(s, Next(s, NextStep(s.passes[p].pc, p, env)), p, track, env)
  {
    hide Inv, ProcessedTab, BuiltTab, SentTab, LinkedTab, SubmittedTab, RetryTab;
  }

  /** Every step of an uninterrupted pass is enabled, keeps the outcome foretold and
      brings the pass closer to its end. */
  lemma ScriptStep(s: Sys, p: nat, track: nat, env: Env)
    requires Along(s, p, track, env) && !s.passes[p].pc.Done?
    ensures !Ended(s.passes[p].pc)
    ensures var a := NextStep(s.passes[p].pc, p, env);
            && PassOf(a) == Some(p) && Disciplined(s, a) && Foretold(s, Next(s, a), p, track, env)
            && Along(Next(s, a).value, p, track, env)
  {
    hide Inv, Next, Rest, WillPost;
    match s.passes[p].pc {
      case Claimed(_) => LookupStep(s, p, track, env);
      case Absent(_) => CreateStep(s, p, track, env);
      case Sending(_, _) => SendStep(s, p, track, env);
      case Posted(_, _, _) => SendStep(s, p, track, env);
      case Executed(_, _, _) => LinkStep(s, p, track, env);
      case Linked(_, _, _) => SubmitStep(s, p, track, env);
      case Refused(_) => FailStep(s, p, track, env);
      case Erred(_) => RetryStep(s, p, track, env);
      case Concluding(_, _, _) => ConcludeStep(s, p, track, env);
    }
    StepKeeps(s, NextStep(s.passes[p].pc, p, env), ANY);
  }

  // -------------------------------------------------------- the whole pass

  lemma RunExtends(actions: seq<Action>, a: Action) returns (longer: seq<Action>)
    requires DisciplinedRun(actions) && Run(actions).Some?
    requires Disciplined(Run(actions).value, a) && Next(Run(actions).value, a).Some?
    ensures longer == actions + [a] && DisciplinedRun(longer) && Run(longer) == Next(Run(actions).value, a)
  {
    longer := actions + [a];
    assert longer[..|actions|] == actions;
  }

  /** From anywhere in a pass to its end: the foretold tables and posts come true. */
  ghost predicate ComesTrue(s: Sys, s': Sys, p: nat, track: nat, env: Env)
    requires PassAt(s, p) && Fits(s, p, track, env)
  {
    && p < |s'.passes| && s'.passes[p].pc == Done && s'.clock == s.clock
    && TabOf(s') == Rest(s, p, track, env)
    && |s'.verdicts| == |s.verdicts| + (if WillPost(s, p, env) then 1 else 0)
  }

  /** The protocol refines the processor: an uninterrupted pass ends, after at most
      eight steps of its own, with the tables the processor leaves, and has posted
      exactly when the submission it found had no TrackID, or it built one. */
  lemma {:induction false} UninterruptedPass(actions: seq<Action>, p: nat, track: nat, env: Env)
    returns (longer: seq<Action>)
    requires DisciplinedRun(actions) && Run(actions).Some? && Along(Run(actions).value, p, track, env)
    ensures DisciplinedRun(longer) && Run(longer).Some? && actions <= longer
    ensures |longer| <= |actions| + Rank(Run(actions).value.passes[p].pc)
    ensures forall i :: |actions| <= i < |longer| ==> PassOf(longer[i]) == Some(p)
    ensures ComesTrue(Run(actions).value, Run(longer).value, p, track, env)
    decreases Rank(Run(actions).value.passes[p].pc)
  {
    hide Run, DisciplinedRun, Next, Inv;
    var s := Run(actions).value;
    if s.passes[p].pc.Done? {
      longer := actions;
    } else {
      ScriptStep(s, p, track, env);
      var a := NextStep(s.passes[p].pc, p, env);
      var one := RunExtends(actions, a);
      longer := UninterruptedPass(one, p, track, env);
    }
  }

  // --------------------------------------------------------------- recovery

  /** Where the pass leaves the request: submitted or answered, failed, or waiting for its retry. */
  predicate Settled(t: Tab, t': Tab, r: nat, now: int)
    requires r < |t.rows|
  {
    && r < |t'.rows|
    && (InFlight(t'.rows[r].state) || t'.rows[r].state == PublicState.Failed
        || (t'.rows[r].state == Processing && t'.rows[r].attempts == t.rows[r].attempts + 1
            && t'.rows[r].nextAttemptAt == now + Backoff(t'.rows[r].attempts)))
  }

  lemma RetrySettles(t: Tab, r: nat, copy: Row, now: int)
    requires r < |t.rows| && t.rows[r].state == Processing && copy.state == Processing
             && copy.attempts == t.rows[r].attempts
    ensures Settled(t, RetryTab(t, r, copy, now), r, now)
  {}

  lemma FailSettles(t: Tab, r: nat, copy: Row, now: int)
    requires r < |t.rows| && t.rows[r].state == Processing
    ensures Settled(t, ApplyTab(t, r, copy, PublicState.Failed, now), r, now)
  {}

  lemma SubmitSettles(t: Tab, r: nat, copy: Row, held: Row, sub: Submission, now: int, env: Env)
    requires r < |t.rows| && t.rows[r].state == Processing && copy.state == Processing
             && copy.attempts == t.rows[r].attempts
    ensures Settled(t, SubmittedTab(t, r, copy, held, sub, now, env), r, now)
    ensures env.submitOk ==> InFlight(SubmittedTab(t, r, copy, held, sub, now, env).rows[r].state)
  {
    RetrySettles(t, r, copy, now);
    hide RetryTab;
  }

  lemma LinkSettles(t: Tab, r: nat, copy: Row, d: nat, sub: Submission, now: int, env: Env)
    requires r < |t.rows| && t.rows[r].state == Processing && copy.state == Processing
             && copy.attempts == t.rows[r].attempts
    ensures Settled(t, LinkedTab(t, r, copy, d, sub, now, env), r, now)
    ensures env.linkOk && env.submitOk && sub.track.Some? ==>
              InFlight(LinkedTab(t, r, copy, d, sub, now, env).rows[r].state)
  {
    var held := t.rows[r].(rcofId := Some(d));
    var t' := t.(rows := t.rows[r := held]);
    RetrySettles(t, r, copy, now);
    RetrySettles(t', r, copy, now);
    SubmitSettles(t', r, copy, held, sub, now, env);
    hide RetryTab, SubmittedTab;
  }

  lemma SentSettles(t: Tab, r: nat, copy: Row, d: nat, track: nat, now: int, env: Env)
    requires r < |t.rows| && d < |t.subs|
    requires t.rows[r].state == Processing && copy.state == Processing && copy.attempts == t.rows[r].attempts
    ensures Settled(t, SentTab(t, r, copy, d, track, now, env), r, now)
  {
    hide RetryTab, LinkedTab;
    match env.sent
    case Lost(_, written) =>
      RetrySettles(if written then t.(subs := t.subs[d := t.subs[d].(status := PublicState.Failed)]) else t, r, copy,
                   now);
    case Answered =>
      var sub := t.subs[d].(track := Some(track), status := Submitted, source := None);
      LinkSettles(t.(subs := t.subs[d := sub]), r, copy, d, sub, now, env);
  }

  lemma ProcessedSettles(t: Tab, r: nat, copy: Row, track: nat, now: int, env: Env)
    requires r < |t.rows| && t.rows[r].state == Processing && copy.state == Processing
             && copy.attempts == t.rows[r].attempts
    ensures Settled(t, ProcessedTab(t, r, copy, track, now, env), r, now)
  {
    hide RetryTab, LinkedTab, SentTab, ApplyTab;
    RetrySettles(t, r, copy, now);
    FailSettles(t, r, copy, now);
    var d := Find(t.subs, copy.key);
    if d == |t.subs| {
      SentSettles(t.(subs := t.subs + [Submission(copy.key, Submitted, None, None)]), r, copy, d, track, now, env);
    } else {
      SentSettles(t, r, copy, d, track, now, env);
      LinkSettles(t, r, copy, d, t.subs[d], now, env);
    }
  }

  /** The lease of `r` runs out and a new pass claims it. */
  lemma Reclaim(actions: seq<Action>, r: nat) returns (longer: seq<Action>)
    requires DisciplinedRun(actions) && Run(actions).Some? && r < |Run(actions).value.rows|
    requires Run(actions).value.rows[r].state in {Queued, Processing}
    ensures DisciplinedRun(longer) && Run(longer).Some? && |longer| == |actions| + 2
    ensures longer[|actions|].Tick? && longer[|actions| + 1] == Claim(r) && actions <= longer
    ensures var s, s' := Run(actions).value, Run(longer).value; var p := |s.passes|;
            && |s'.passes| == p + 1 && s'.passes[p].request == r && s'.passes[p].pc.Claimed? && Holds(s', p)
            && |s'.rows| == |s.rows| && s'.rows[r].state == Processing && s'.rows[r].attempts == s.rows[r].attempts
            && s'.rows[r].key == s.rows[r].key && s'.subs == s.subs && s'.verdicts == s.verdicts
  {
    hide Run, DisciplinedRun;
    DisciplinedRunKeeps(actions);
    var s := Run(actions).value;
    var waited := RunExtends(actions,
                             Tick(if s.rows[r].nextAttemptAt > s.clock then s.rows[r].nextAttemptAt - s.clock else 0));
    longer := RunExtends(waited, Claim(r));
  }

  /** From every reachable state, wherever the earlier pass was cut short: once the
      lease ran out, one uninterrupted pass ends in submitted or in the authority's
      answer, in failed, or in a scheduled retry below the maximum of attempts; it
      posts at most once, and not at all if the day's submission has a TrackID. */
  lemma {:induction false} Recovery(actions: seq<Action>, r: nat, env: Env) returns (longer: seq<Action>)
    requires DisciplinedRun(actions) && Run(actions).Some? && r < |Run(actions).value.rows|
    requires Run(actions).value.rows[r].state in {Queued, Processing}
    ensures DisciplinedRun(longer) && Run(longer).Some? && actions <= longer
            && |actions| + 2 <= |longer| <= |actions| + 10
    ensures longer[|actions|].Tick? && longer[|actions| + 1] == Claim(r)
            && forall i :: |actions| + 2 <= i < |longer| ==> PassOf(longer[i]) == Some(|Run(actions).value.passes|)
    ensures Recovered(Run(actions).value, Run(longer).value, r)
  {
    hide Run, DisciplinedRun, Inv, ProcessedTab, Settled, Claims, CutShort;
    var claimed := Reclaim(actions, r);
    DisciplinedRunKeeps(claimed);
    var s, p := Run(claimed).value, |Run(actions).value.passes|;
    ClaimedCopy(s, p);
    longer := UninterruptedPass(claimed, p, |s.verdicts|, env);
    ProcessedSettles(TabOf(s), r, s.passes[p].pc.copy, |s.verdicts|, s.clock, env);
    ShowsRow(TabOf(s), Run(longer).value, r, s.clock);
    ClaimsAreBounded(longer, r);
    SettledFrom(Run(actions).value, s, Run(longer).value, r);
  }

  lemma ClaimedCopy(s: Sys, p: nat)
    requires Inv(s, ANY) && Holds(s, p) && s.passes[p].pc.Claimed?
    ensures PassAt(s, p)
    ensures var copy, row := s.passes[p].pc.copy, s.rows[s.passes[p].request];
            copy.state == row.state == Processing && copy.attempts == row.attempts && copy.key == row.key
  {
    HolderFacts(s, p, ANY);
  }

  ghost predicate Recovered(s: Sys, s': Sys, r: nat)
    requires r < |s.rows|
  {
    && Settled(TabOf(s), TabOf(s'), r, s'.clock)
    && (s'.rows[r].state == Processing ==> s'.rows[r].attempts < EmissionDb.MAX_ATTEMPTS)
    && |s.verdicts| <= |s'.verdicts| <= |s.verdicts| + 1
    && (Find(s.subs, s.rows[r].key) < |s.subs| && s.subs[Find(s.subs, s.rows[r].key)].track.Some? ==>
        |s'.verdicts| == |s.verdicts|)
  }

  lemma ShowsRow(t: Tab, s': Sys, r: nat, now: int)
    requires r < |t.rows| && Settled(t, TabOf(s'), r, now)
    ensures r < |s'.rows|
  {}

  lemma SettledFrom(s: Sys, c: Sys, s': Sys, r: nat)
    requires r < |s.rows| == |c.rows| && c.rows[r].attempts == s.rows[r].attempts && c.rows[r].key == s.rows[r].key
    requires c.subs == s.subs && c.verdicts == s.verdicts && c.clock == s'.clock
    requires Settled(TabOf(c), TabOf(s'), r, s'.clock)
    requires s'.rows[r].state == Processing ==> s'.rows[r].attempts < EmissionDb.MAX_ATTEMPTS
    requires |c.verdicts| <= |s'.verdicts| <= |c.verdicts| + 1
    requires Find(c.subs, c.rows[r].key) < |c.subs| && c.subs[Find(c.subs, c.rows[r].key)].track.Some? ==>
               |s'.verdicts| == |c.verdicts|
    ensures Recovered(s, s', r)
  {}
}
