/** Disciplined runs of the receipts-report protocol in which a transition is
    rejected: one with final verdicts, one with a single TrackID. */
module RcofWitnesses {
  import opened Wrappers
  import opened RequestStates
  import opened RcofProtocol
  import opened RcofInvariant
  import opened RcofSteps
  import Protocol

  /** Verdicts are final; a TrackID may be recorded over another. */
  const FINAL_VERDICTS := Mode(false, false)

  /** An objection may be settled; no TrackID is recorded over another. */
  const ONE_TRACK := Mode(true, true)

  lemma Then(actions: seq<Action>, a: Action, m: Mode) returns (longer: seq<Action>)
    requires AdmittedRun(actions, m) && Run(actions).Some?
    requires Admits(Run(actions).value, a, m) && Next(Run(actions).value, a).Some?
    ensures longer == actions + [a] && AdmittedRun(longer, m) && Run(longer) == Next(Run(actions).value, a)
  {
    longer := actions + [a];
    assert longer[..|actions|] == actions;
  }

  lemma Nothing(m: Mode)
    ensures AdmittedRun([], m) && Run([]) == Some(START)
  {}

  // ------------------------------------------------- two posts, two verdicts

  /** Two requests for the same day, each with a pass about to send the one submission. */
  predicate BothSending(s: Sys, day: Key) {
    && |s.rows| == 2 && |s.leases| == 2 && |s.settledBy| == 2 && |s.subs| == 1 && |s.passes| == 2
    && s.leases[0] == Some(0) && s.leases[1] == Some(1)
    && s.rows[0].state == Processing && s.rows[1].state == Processing && s.rows[0].key == day && s.subs[0].key == day
    && s.passes[0].request == 0 && s.passes[0].pc.Sending? && s.passes[0].pc.d == 0
    && s.passes[1].request == 1 && s.passes[1].pc.Sending? && s.passes[1].pc.d == 0
    && s.subs[0].track.None? && s.verdicts == [] && s.polls == [] && s.raises == []
  }

  /** The day was requested `n` times, and nothing else happened. */
  lemma DayRequested(day: Key, n: nat, m: Mode) returns (actions: seq<Action>)
    requires n == 1 || n == 2
    ensures AdmittedRun(actions, m) && Run(actions).Some?
    ensures var s := Run(actions).value;
            && |s.rows| == n && |s.leases| == n && |s.settledBy| == n && s.subs == [] && s.passes == [] && s.polls == []
            && s.verdicts == [] && s.raises == []
            && forall r :: 0 <= r < n ==> s.rows[r].key == day && s.rows[r].state == Queued && s.rows[r].rcofId.None?
  {
    hide Run, AdmittedRun;
    Nothing(m);
    actions := Then([], Enqueue(day), m);
    if n == 2 { actions := Then(actions, Enqueue(day), m); }
  }

  lemma BothClaimed(day: Key) returns (actions: seq<Action>)
    ensures AdmittedRun(actions, FINAL_VERDICTS) && Run(actions).Some?
    ensures var s := Run(actions).value;
            && |s.rows| == 2 && |s.settledBy| == 2 && s.leases == [Some(0), Some(1)] && |s.passes| == 2
            && s.subs == [] && s.polls == [] && s.verdicts == [] && s.raises == []
            && forall p :: 0 <= p < 2 ==>
                 s.rows[p].key == day && s.rows[p].state == Processing && s.passes[p].request == p
                 && s.passes[p].pc.Claimed? && s.passes[p].pc.copy.key == day
  {
    hide Run, AdmittedRun;
    actions := DayRequested(day, 2, FINAL_VERDICTS);
    actions := Then(actions, Claim(0), FINAL_VERDICTS);
    actions := Then(actions, Claim(1), FINAL_VERDICTS);
  }

  lemma BothSend(day: Key) returns (actions: seq<Action>)
    ensures AdmittedRun(actions, FINAL_VERDICTS) && Run(actions).Some? && BothSending(Run(actions).value, day)
  {
    hide Run, AdmittedRun;
    actions := BothClaimed(day);
    actions := Then(actions, Lookup(0), FINAL_VERDICTS);
    actions := Then(actions, Create(0), FINAL_VERDICTS);
    actions := Then(actions, Lookup(1), FINAL_VERDICTS);
  }

  /** Both posted; the first request is submitted under TrackID 0, the second still has TrackID 1 to record. */
  predicate FirstSubmitted(s: Sys) {
    && |s.rows| == 2 && |s.leases| == 2 && |s.settledBy| == 2 && |s.subs| == 1 && |s.passes| == 2
    && s.leases[1] == Some(1)
    && s.rows[0].state == Submitted && s.rows[0].rcofId == Some(0)
    && s.passes[1].request == 1 && s.passes[1].pc.Posted? && s.passes[1].pc.d == 0 && s.passes[1].pc.track == 1
    && s.subs[0].track == Some(0) && s.subs[0].status == Submitted && s.polls == [] && s.raises == []
  }

  lemma BothPost(day: Key) returns (actions: seq<Action>)
    ensures AdmittedRun(actions, FINAL_VERDICTS) && Run(actions).Some?
    ensures var s := Run(actions).value;
            && |s.rows| == 2 && |s.leases| == 2 && |s.settledBy| == 2 && |s.subs| == 1 && |s.passes| == 2
            && s.leases == [Some(0), Some(1)] && s.rows[0].state == Processing
            && (forall p :: 0 <= p < 2 ==>
                  && s.passes[p].request == p && s.passes[p].pc.Posted?
                  && s.passes[p].pc.d == 0 && s.passes[p].pc.track == p)
            && s.verdicts == [Protocol.SiiPending, Protocol.SiiPending] && s.polls == [] && s.raises == []
  {
    hide Run, AdmittedRun;
    actions := BothSend(day);
    actions := Then(actions, Post(0), FINAL_VERDICTS);
    actions := Then(actions, Post(1), FINAL_VERDICTS);
  }

  lemma FirstIsRecorded(day: Key) returns (actions: seq<Action>)
    ensures AdmittedRun(actions, FINAL_VERDICTS) && Run(actions).Some?
    ensures var s := Run(actions).value;
            && |s.rows| == 2 && s.leases == [Some(0), Some(1)] && |s.settledBy| == 2 && |s.subs| == 1 && |s.passes| == 2
            && s.rows[0].state == Processing
            && s.passes[0].request == 0 && s.passes[0].pc.Executed? && s.passes[0].pc.d == 0
            && s.passes[0].pc.sub == s.subs[0]
            && s.passes[1].request == 1 && s.passes[1].pc.Posted? && s.passes[1].pc.d == 0 && s.passes[1].pc.track == 1
            && s.subs[0].track == Some(0) && s.subs[0].status == Submitted
            && s.verdicts == [Protocol.SiiPending, Protocol.SiiPending] && s.polls == [] && s.raises == []
  {
    hide Run, AdmittedRun;
    actions := BothPost(day);
    actions := Then(actions, RecordTrack(0), FINAL_VERDICTS);
  }

  lemma FirstIsSubmitted(day: Key) returns (actions: seq<Action>)
    ensures AdmittedRun(actions, FINAL_VERDICTS) && Run(actions).Some?
    ensures FirstSubmitted(Run(actions).value)
            && Run(actions).value.verdicts == [Protocol.SiiPending, Protocol.SiiPending]
  {
    hide Run, AdmittedRun;
    actions := FirstIsRecorded(day);
    actions := Then(actions, Link(0), FINAL_VERDICTS);
    actions := Then(actions, ApplySubmitted(0), FINAL_VERDICTS);
  }

  /** The first TrackID's acceptance is on its way; the second TrackID has replaced it. */
  predicate SlowPoll(s: Sys) {
    && |s.rows| == 2 && |s.settledBy| == 2 && |s.subs| == 1 && s.rows[0].state == Submitted
    && s.rows[0].rcofId == Some(0)
    && s.verdicts == [Protocol.SiiAceptado, Protocol.SiiRechazado]
    && s.subs[0].track == Some(1) && s.subs[0].status == Submitted && s.raises == []
    && |s.polls| == 2 && s.polls[0].request == 0 && s.polls[1].request == 0 && s.polls[1].pc.PollStart?
    && s.polls[1].copy.rcofId == Some(0)
    && s.polls[0].pc.Writing? && s.polls[0].pc.d == 0 && s.polls[0].pc.track == 0 && s.polls[0].pc.status == Accepted
  }

  lemma PollIsSlow(day: Key) returns (actions: seq<Action>)
    ensures AdmittedRun(actions, FINAL_VERDICTS) && Run(actions).Some? && SlowPoll(Run(actions).value)
  {
    hide Run, AdmittedRun;
    actions := FirstIsSubmitted(day);
    actions := Then(actions, SiiDecides(0, Protocol.SiiAceptado), FINAL_VERDICTS);
    actions := Then(actions, SiiDecides(1, Protocol.SiiRechazado), FINAL_VERDICTS);
    actions := Then(actions, StartPoll(0), FINAL_VERDICTS);
    actions := Then(actions, StartPoll(0), FINAL_VERDICTS);
    actions := Then(actions, ReadSubmission(0), FINAL_VERDICTS);
    actions := Then(actions, Ask(0), FINAL_VERDICTS);
    actions := Then(actions, RecordTrack(1), FINAL_VERDICTS);
  }

  /** The first request is polled twice; the first poll stands at `slow`. */
  predicate Racing(s: Sys, slow: PollPc) {
    && |s.rows| >= 1 && |s.settledBy| >= 1 && |s.subs| == 1 && s.raises == []
    && |s.polls| == 2 && s.polls[0].request == 0 && s.polls[0].pc == slow && s.polls[1].request == 0
    && s.polls[1].copy.rcofId == Some(0)
  }

  /** The authority has answered the submitted request's TrackID. */
  predicate Answered(s: Sys, track: nat, status: PublicState)
    requires |s.rows| >= 1 && |s.subs| >= 1
  {
    && s.rows[0].state == Submitted && s.subs[0].status == Submitted && s.subs[0].track == Some(track)
    && track < |s.verdicts| && StatusFor(s.verdicts[track], Submitted) == status && Answer(status)
  }

  /** The second poll carries the answer, and the request is still submitted. */
  predicate Carrying(s: Sys, track: nat, status: PublicState)
    requires |s.rows| >= 1 && |s.polls| >= 2
  {
    && s.polls[1].pc.Writing? && s.polls[1].pc.d == 0 && s.polls[1].pc.track == track && s.polls[1].pc.status == status
    && s.rows[0].state == Submitted && Answer(status)
  }

  lemma LateAsk(actions: seq<Action>, slow: PollPc, track: nat, status: PublicState, m: Mode)
    returns (longer: seq<Action>)
    requires AdmittedRun(actions, m) && Run(actions).Some? && Racing(Run(actions).value, slow)
    requires Run(actions).value.polls[1].pc.PollStart? && Answered(Run(actions).value, track, status)
    ensures AdmittedRun(longer, m) && Run(longer).Some? && Racing(Run(longer).value, slow)
    ensures Carrying(Run(longer).value, track, status)
  {
    hide Run, AdmittedRun, SubmissionRead, Asked, Answered, Carrying, Racing;
    var _, _ := LateSteps(Run(actions).value, slow, track, status);
    longer := Then(actions, ReadSubmission(1), m);
    longer := Then(longer, Ask(1), m);
  }

  lemma LateSteps(s: Sys, slow: PollPc, track: nat, status: PublicState) returns (read: Sys, asked: Sys)
    requires Racing(s, slow) && s.polls[1].pc.PollStart? && Answered(s, track, status)
    ensures SubmissionRead(s, 1) == Some(read) && Asked(read, 1) == Some(asked)
    ensures Racing(asked, slow) && Carrying(asked, track, status)
  {
    read := SubmissionRead(s, 1).value;
    asked := Asked(read, 1).value;
  }

  /** The second poll settles the request first. */
  lemma LateSettle(actions: seq<Action>, slow: PollPc, track: nat, status: PublicState, m: Mode)
    returns (longer: seq<Action>)
    requires AdmittedRun(actions, m) && Run(actions).Some? && Racing(Run(actions).value, slow)
    requires Run(actions).value.polls[1].pc.PollStart? && Answered(Run(actions).value, track, status)
    ensures AdmittedRun(longer, m) && Run(longer).Some? && Racing(Run(longer).value, slow)
    ensures Run(longer).value.rows[0].state == status && Run(longer).value.settledBy[0] == Some(track)
  {
    hide Run, AdmittedRun, StatusWritten, PollApplied, Carrying, Racing;
    var asked := LateAsk(actions, slow, track, status, m);
    var _, _ := SettleSteps(Run(asked).value, slow, track, status);
    longer := Then(asked, WriteStatus(1), m);
    longer := Then(longer, ApplyPoll(1), m);
  }

  lemma SettleSteps(s: Sys, slow: PollPc, track: nat, status: PublicState) returns (written: Sys, settled: Sys)
    requires Racing(s, slow) && Carrying(s, track, status)
    ensures StatusWritten(s, 1) == Some(written) && PollApplied(written, 1) == Some(settled)
    ensures Racing(settled, slow) && settled.rows[0].state == status && settled.settledBy[0] == Some(track)
  {
    written := StatusWritten(s, 1).value;
    settled := PollApplied(written, 1).value;
  }

  /** Final verdicts and respected leases are not enough when two requests share a
      submission, whatever its date and sequence: it is recorded under two TrackIDs,
      one poll settles the request with the second verdict, and the other then brings
      the first. */
  lemma TwoTracksRaise(day: Key) returns (actions: seq<Action>)
    ensures AdmittedRun(actions, FINAL_VERDICTS) && Run(actions).Some?
    ensures Run(actions).value.raises == [Raise(Rejected, Some(1), Accepted, Some(0))]
  {
    hide Run, AdmittedRun;
    var before := PollIsSlow(day);
    actions := LateSettle(before, Run(before).value.polls[0].pc, 1, Rejected, FINAL_VERDICTS);
    actions := Then(actions, WriteStatus(0), FINAL_VERDICTS);
    actions := Then(actions, ApplyPoll(0), FINAL_VERDICTS);
  }

  // -------------------------------------------------------- outdated objection

  /** One submitted request and one TrackID. */
  predicate OneSubmitted(s: Sys) {
    && |s.rows| == 1 && |s.settledBy| == 1 && |s.subs| == 1 && s.rows[0].state == Submitted
    && s.rows[0].rcofId == Some(0)
    && s.subs[0].track == Some(0) && s.subs[0].status == Submitted && s.polls == [] && s.raises == []
    && s.verdicts == [Protocol.SiiPending]
  }

  lemma OneAbsent(day: Key) returns (actions: seq<Action>)
    ensures AdmittedRun(actions, ONE_TRACK) && Run(actions).Some?
    ensures var s := Run(actions).value;
            && |s.rows| == 1 && |s.leases| == 1 && |s.settledBy| == 1 && s.subs == [] && |s.passes| == 1
            && s.leases[0] == Some(0) && s.rows[0].state == Processing && s.passes[0].request == 0
            && s.passes[0].pc.Absent?
            && s.verdicts == [] && s.polls == [] && s.raises == []
  {
    hide Run, AdmittedRun;
    actions := DayRequested(day, 1, ONE_TRACK);
    actions := Then(actions, Claim(0), ONE_TRACK);
    actions := Then(actions, Lookup(0), ONE_TRACK);
  }

  lemma OnePosts(day: Key) returns (actions: seq<Action>)
    ensures AdmittedRun(actions, ONE_TRACK) && Run(actions).Some?
    ensures var s := Run(actions).value;
            && |s.rows| == 1 && |s.leases| == 1 && |s.settledBy| == 1 && |s.subs| == 1 && |s.passes| == 1
            && s.leases[0] == Some(0) && s.rows[0].state == Processing
            && s.passes[0].request == 0 && s.passes[0].pc.Posted? && s.passes[0].pc.d == 0 && s.passes[0].pc.track == 0
            && s.subs[0].track.None? && s.verdicts == [Protocol.SiiPending] && s.polls == [] && s.raises == []
  {
    hide Run, AdmittedRun;
    actions := OneAbsent(day);
    actions := Then(actions, Create(0), ONE_TRACK);
    actions := Then(actions, Post(0), ONE_TRACK);
  }

  lemma OneIsSubmitted(day: Key) returns (actions: seq<Action>)
    ensures AdmittedRun(actions, ONE_TRACK) && Run(actions).Some? && OneSubmitted(Run(actions).value)
  {
    hide Run, AdmittedRun;
    actions := OnePosts(day);
    actions := Then(actions, RecordTrack(0), ONE_TRACK);
    actions := Then(actions, Link(0), ONE_TRACK);
    actions := Then(actions, ApplySubmitted(0), ONE_TRACK);
  }

  /** The objection was settled while a poll carries it. */
  predicate Overtaken(s: Sys) {
    && |s.rows| == 1 && |s.settledBy| == 1 && |s.subs| == 1 && s.raises == []
    && s.verdicts == [Protocol.SiiAceptado] && s.subs[0].track == Some(0) && |s.polls| == 2
    && s.polls[0].request == 0 && s.polls[0].pc.Writing? && s.polls[0].pc.d == 0 && s.polls[0].pc.track == 0
    && s.polls[0].pc.status == Observed
  }

  /** An objection to the submitted request, and two polls that have not asked yet. */
  predicate Objected(s: Sys) {
    && |s.rows| == 1 && |s.settledBy| == 1 && |s.subs| == 1 && s.raises == []
    && s.rows[0].state == Submitted && s.subs[0].track == Some(0) && s.subs[0].status == Submitted
    && s.verdicts == [Protocol.SiiReparo] && |s.polls| == 2
    && s.polls[0].request == 0 && s.polls[0].pc.PollStart? && s.polls[0].copy.rcofId == Some(0)
    && s.polls[1].request == 0 && s.polls[1].pc.PollStart? && s.polls[1].copy.rcofId == Some(0)
  }

  lemma IsObjected(day: Key) returns (actions: seq<Action>)
    ensures AdmittedRun(actions, ONE_TRACK) && Run(actions).Some? && Objected(Run(actions).value)
  {
    hide Run, AdmittedRun;
    actions := OneIsSubmitted(day);
    actions := Then(actions, StartPoll(0), ONE_TRACK);
    actions := Then(actions, StartPoll(0), ONE_TRACK);
    actions := Then(actions, SiiDecides(0, Protocol.SiiReparo), ONE_TRACK);
  }

  /** The second poll has still to ask. */
  predicate SecondWaits(s: Sys) {
    && Overtaken(s) && s.rows[0].state == Submitted && s.subs[0].status == Submitted
    && s.polls[1].request == 0 && s.polls[1].pc.PollStart? && s.polls[1].copy.rcofId == Some(0)
  }

  lemma OvertakeSteps(s: Sys) returns (read: Sys, asked: Sys, settled: Sys)
    requires Objected(s)
    ensures SubmissionRead(s, 0) == Some(read) && Asked(read, 0) == Some(asked)
    ensures Decided(asked, 0, Protocol.SiiAceptado) == Some(settled) && SecondWaits(settled)
  {
    read := SubmissionRead(s, 0).value;
    asked := Asked(read, 0).value;
    settled := Decided(asked, 0, Protocol.SiiAceptado).value;
  }

  lemma AsksBefore(day: Key) returns (actions: seq<Action>)
    ensures AdmittedRun(actions, ONE_TRACK) && Run(actions).Some? && SecondWaits(Run(actions).value)
  {
    hide Run, AdmittedRun, Objected, SubmissionRead, Asked, Decided, SecondWaits;
    actions := IsObjected(day);
    var _, _, _ := OvertakeSteps(Run(actions).value);
    actions := Then(actions, ReadSubmission(0), ONE_TRACK);
    actions := Then(actions, Ask(0), ONE_TRACK);
    actions := Then(actions, SiiDecides(0, Protocol.SiiAceptado), ONE_TRACK);
  }

  /** An objection settled while a poll carries it is rejected when it arrives, with
      one TrackID and no shared submission. */
  lemma OutdatedObjectionRaises(day: Key) returns (actions: seq<Action>)
    ensures AdmittedRun(actions, ONE_TRACK) && Run(actions).Some?
    ensures Run(actions).value.raises == [Raise(Accepted, Some(0), Observed, Some(0))]
  {
    hide Run, AdmittedRun;
    var before := AsksBefore(day);
    actions := LateSettle(before, Run(before).value.polls[0].pc, 0, Accepted, ONE_TRACK);
    actions := Then(actions, WriteStatus(0), ONE_TRACK);
    actions := Then(actions, ApplyPoll(0), ONE_TRACK);
  }
}
