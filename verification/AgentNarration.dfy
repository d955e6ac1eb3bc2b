/** When an agent run may be heard: the pacing and the order of its milestones
    (apps/realtime-gateway/src/agent-run-controller.ts:234-329). */
module AgentNarration {
  import opened Prelude
  import opened AgentRuns

  // ----- pacing -----

  /** The moments the controller remembers as audible: narration, and speech being stopped. */
  function AudibleAt(e: Entry): Option<real> {
    match e
    case Spoke(_, _, at, _) => Some(at)
    case Silenced(at) => Some(at)
    case _ => None
  }

  predicate NotAfter(e: Entry, limit: Option<real>) {
    AudibleAt(e).Some? ==> limit.Some? && AudibleAt(e).value <= limit.value
  }

  /** No audible moment comes after `limit`; without a limit there is none at all. */
  predicate QuietSince(log: seq<Entry>, limit: Option<real>) {
    log != [] ==> QuietSince(log[..|log| - 1], limit) && NotAfter(log[|log| - 1], limit)
  }

  predicate IsGated(e: Entry) {
    e.Spoke? && e.gated
  }

  /** Every milestone that had to wait came at least `interval` after all that was audible. */
  predicate Paced(interval: real, log: seq<Entry>) {
    log != [] ==>
      var before, e := log[..|log| - 1], log[|log| - 1];
      && Paced(interval, before)
      && (IsGated(e) ==> QuietSince(before, Some(e.at - interval)))
  }

  ghost predicate TimedLog(interval: real, log: seq<Entry>, lastAudible: Option<real>, now: real) {
    && Paced(interval, log)
    && QuietSince(log, lastAudible)
    && (lastAudible.Some? ==> lastAudible.value <= now)
  }

  ghost predicate Timed(interval: real, s: State, now: real) {
    TimedLog(interval, s.log, s.lastAudible, now)
  }

  lemma {:induction false} QuietLater(log: seq<Entry>, limit: Option<real>, later: Option<real>)
    requires QuietSince(log, limit)
    requires limit.Some? ==> later.Some? && limit.value <= later.value
    ensures QuietSince(log, later)
    decreases |log|
  {
    if log != [] { QuietLater(log[..|log| - 1], limit, later); }
  }

  lemma Push(interval: real, log: seq<Entry>, e: Entry, limit: Option<real>)
    ensures QuietSince(log + [e], limit) <==> QuietSince(log, limit) && NotAfter(e, limit)
    ensures Paced(interval, log + [e]) <==>
      Paced(interval, log) && (IsGated(e) ==> QuietSince(log, Some(e.at - interval)))
  {
    assert (log + [e])[..|log|] == log;
  }

  /** An entry that makes no sound, and one that does. */
  lemma SilentEntryKeeps(interval: real, s: State, e: Entry, now: real)
    requires Timed(interval, s, now) && AudibleAt(e).None?
    ensures Timed(interval, Log(s, e), now)
  {
    Push(interval, s.log, e, s.lastAudible);
  }

  lemma AudibleEntryKeeps(interval: real, s: State, e: Entry, at: real)
    requires Timed(interval, s, at) && AudibleAt(e) == Some(at)
    requires IsGated(e) ==> Ripe(interval, s, at)
    ensures Timed(interval, Log(s, e).(lastAudible := Some(at)), at)
  {
    QuietLater(s.log, s.lastAudible, Some(at));
    if IsGated(e) { QuietLater(s.log, s.lastAudible, Some(at - interval)); }
    Push(interval, s.log, e, Some(at));
  }

  /** Delivering leaves log and mark as they are, or adds the one entry and its moment. */
  lemma DeliverMarks(s: State, kind: Kind, said: Staged, at: real, gated: bool, throws: bool)
    ensures var r := Deliver(s, kind, said, at, gated, throws).state;
      || (r.log == s.log && r.lastAudible == s.lastAudible)
      || (r.log == Log(s, Spoke(kind, said, at, gated)).log && r.lastAudible == Some(at))
  {
  }

  lemma DeliverTimed(interval: real, s: State, kind: Kind, said: Staged, at: real, gated: bool, throws: bool)
    requires Timed(interval, s, at) && (gated ==> Ripe(interval, s, at))
    ensures Timed(interval, Deliver(s, kind, said, at, gated, throws).state, at)
  {
    DeliverMarks(s, kind, said, at, gated, throws);
    AudibleEntryKeeps(interval, s, Spoke(kind, said, at, gated), at);
  }

  lemma FlushTimed(interval: real, s: State, at: real, throws: bool)
    requires Timed(interval, s, at)
    ensures Timed(interval, FlushPendingMilestone(interval, s, at, throws).state, at)
  {
    if s.pending.Some? && Ripe(interval, s, at) {
      DeliverTimed(interval, s.(pending := None), Milestone, s.pending.value, at, true, throws);
    }
  }

  lemma SpeakTimed(interval: real, s: State, text: string, at: real, throws: bool)
    requires Timed(interval, s, at)
    ensures Timed(interval, SpeakMilestone(interval, s, text, at, throws).state, at)
  {
    var t := s.(described := s.described + 1);
    if Ripe(interval, t, at) {
      DeliverTimed(interval, t, Milestone, Staged(text, s.described), at, true, throws);
    }
  }

  lemma ReportTimed(interval: real, s: State, state: Execution, throws: bool, now: real)
    requires Timed(interval, s, now)
    ensures Timed(interval, ReportTerminal(s, state, throws).state, now)
  {
    SilentEntryKeeps(interval, s, Reported(state), now);
  }

  lemma FinishTimed(interval: real, s: State, state: Execution, throws: bool, now: real)
    requires Timed(interval, s, now)
    ensures Timed(interval, FinishRun(s, state, throws).state, now)
  {
    if !s.terminal && Finish(s.life, state).Some? {
      ReportTimed(interval, s.(pending := None, life := Finish(s.life, state).value), state, throws, now);
    }
  }

  lemma FailTimed(interval: real, s: State, stopSpeech: bool, stopThrows: bool, throws: bool, now: real)
    requires Timed(interval, s, now)
    ensures Timed(interval, FailRun(s, stopSpeech, stopThrows, throws).state, now)
  {
    if Fail(s.life).Some? {
      ReportTimed(interval, s.(pending := None, life := Fail(s.life).value), Failed, throws, now);
    }
  }

  lemma ToolTimed(interval: real, s: State, milestone: Option<string>, f: Faults, first: real, second: real)
    requires Timed(interval, s, first) && first <= second
    ensures Timed(interval, AcceptTool(interval, s, milestone, f, first, second).state, second)
  {
    FlushTimed(interval, s, first, f.flush);
    if milestone.Some? {
      SpeakTimed(interval, FlushPendingMilestone(interval, s, first, f.flush).state, milestone.value, second, f.speak);
    }
  }

  lemma ThenCompleteTimed(interval: real, narration: Outcome, throws: bool, now: real)
    requires Timed(interval, narration.state, now)
    ensures Timed(interval, ThenComplete(narration, throws).state, now)
  {
    FinishTimed(interval, narration.state, Completed, throws, now);
  }

  lemma RestageTimed(interval: real, s: State, pending: Option<Staged>, described: nat, now: real)
    requires Timed(interval, s, now)
    ensures Timed(interval, s.(pending := pending, described := described), now)
  {
  }

  lemma NarrateAndFinishTimed(interval: real, s: State, said: Staged, f: Faults, at: real)
    requires Timed(interval, s, at)
    ensures Timed(interval, NarrateAndFinish(s, said, f, at).state, at)
  {
    DeliverTimed(interval, s, Milestone, said, at, false, f.speak);
    ThenCompleteTimed(interval, Deliver(s, Milestone, said, at, false, f.speak), f.report, at);
  }

  lemma ConcludeTimed(interval: real, s: State, milestone: Option<string>, f: Faults, at: real)
    requires Timed(interval, s, at)
    ensures Timed(interval, Conclude(s, milestone, f, at).state, at)
  {
    if milestone.None? {
      FinishTimed(interval, s, Completed, f.report, at);
    } else {
      RestageTimed(interval, s, None, s.described + 1, at);
      NarrateAndFinishTimed(interval, Counted(s), Staged(milestone.value, s.described), f, at);
    }
  }

  lemma CompletionTimed(interval: real, s: State, milestone: Option<string>, f: Faults, first: real, second: real)
    requires Timed(interval, s, first) && first <= second
    ensures Timed(interval, AcceptCompletion(interval, s, milestone, f, first, second).state, second)
  {
    var flushed := FlushPendingMilestone(interval, s, first, f.flush);
    FlushTimed(interval, s, first, f.flush);
    ConcludeTimed(interval, flushed.state, milestone, f, second);
  }

  lemma ThenFailTimed(interval: real, narration: Outcome, throws: bool, now: real)
    requires Timed(interval, narration.state, now)
    ensures Timed(interval, ThenFail(narration, throws).state, now)
  {
    if Finish(narration.state.life, Failed).Some? {
      ReportTimed(interval, narration.state.(life := Finish(narration.state.life, Failed).value), Failed, throws, now);
    }
  }

  lemma FailureTimed(interval: real, s: State, narration: string, f: Faults, at: real)
    requires Timed(interval, s, at)
    ensures Timed(interval, AcceptFailure(s, narration, f, at).state, at)
  {
    var t := s.(pending := None);
    DeliverTimed(interval, t, Failure, Staged(narration, s.described), at, false, f.speak);
    ThenFailTimed(interval, Deliver(t, Failure, Staged(narration, s.described), at, false, f.speak), f.report, at);
  }

  lemma DispatchTimed(interval: real, s: State, e: AgentEvent, f: Faults, first: real, second: real)
    requires Timed(interval, s, first) && first <= second
    ensures Timed(interval, Dispatch(interval, s, e, f, first, second).state, second)
  {
    match e
    case TextFinal(text) =>
      DeliverTimed(interval, s.(pending := None), Answer, Staged(text, s.described), second, false, f.speak);
    case ToolEvent(milestone) => ToolTimed(interval, s, milestone, f, first, second);
    case RunCompleted(milestone) => CompletionTimed(interval, s, milestone, f, first, second);
    case RunFailed(narration) => FailureTimed(interval, s, narration, f, second);
    case RunCancelled => FinishTimed(interval, s, Cancelled, f.report, second);
    case RunStarted =>
    case RunSteered =>
    case TextDelta =>
  }

  lemma AcceptTimed(interval: real, s: State, e: AgentEvent, f: Faults, first: real, second: real)
    requires Timed(interval, s, first) && first <= second
    ensures Timed(interval, Accept(interval, s, e, f, first, second).state, second)
  {
    var heard := Log(s, FannedOut(e));
    SilentEntryKeeps(interval, s, FannedOut(e), first);
    if s.terminal {
    } else if s.life.execution.Cancelling? {
      FinishTimed(interval, heard, Cancelled, f.report, second);
      FinishTimed(interval, s, Cancelled, f.report, second);
    } else {
      DispatchTimed(interval, heard, e, f, first, second);
    }
  }

  lemma StreamTimed(interval: real, s: State, x: Input)
    requires Timed(interval, s, x.first) && x.first <= x.second
    requires x.event.Consume? || x.event.StreamEnds? || x.event.StreamBreaks?
    ensures Timed(interval, Step(interval, s, x), x.second)
  {
    var f := x.faults;
    if x.event.Consume? {
      AcceptTimed(interval, s, x.event.event, f, x.first, x.second);
      FailTimed(interval, Accept(interval, s, x.event.event, f, x.first, x.second).state, true, f.stop, f.report,
                x.second);
    } else {
      FailTimed(interval, s, true, f.stop, f.report, x.second);
      FailTimed(interval, FailRun(s, true, f.stop, f.report).state, true, f.stopAgain, f.report, x.second);
    }
  }

  lemma TakeCancelTimed(interval: real, s: State, f: Faults, at: real)
    requires Timed(interval, s, at)
    ensures Timed(interval, TakeCancel(s, f, at).state, at)
  {
    SilentEntryKeeps(interval, s, CancelAccepted, at);
    AudibleEntryKeeps(interval, Log(s, CancelAccepted), Silenced(at), at);
  }

  lemma SettleTimed(interval: real, s: State, rejected: bool, f: Faults, now: real)
    requires Timed(interval, s, now)
    ensures Timed(interval, SettleCancel(s, rejected, f), now)
  {
    FailTimed(interval, s.(calls := s.calls.(cancelCall := Settled)), false, false, f.report, now);
  }

  lemma TimeOutTimed(interval: real, s: State, f: Faults, now: real)
    requires Timed(interval, s, now)
    ensures Timed(interval, TimeOut(s, f), now)
  {
    if s.calls.ending > 0 {
      FailTimed(interval, CloseRun(s.(calls := s.calls.(ending := s.calls.ending - 1))), false, false, f.report, now);
    }
  }

  lemma StopMouthTimed(interval: real, s: State, f: Faults, at: real)
    requires Timed(interval, s, at)
    ensures Timed(interval, StopMouth(s, f, at), at)
  {
    AudibleEntryKeeps(interval, s, Silenced(at), at);
  }

  lemma CancelTimed(interval: real, s: State, f: Faults, at: real)
    requires Timed(interval, s, at)
    ensures Timed(interval, CancelStep(s, f, at), at) && Timed(interval, EndSessionStep(s, f, at), at)
  {
    TakeCancelTimed(interval, s, f, at);
  }

  lemma StepTimed(interval: real, s: State, x: Input)
    requires Timed(interval, s, x.first) && x.first <= x.second
    ensures Timed(interval, Step(interval, s, x), x.second)
  {
    match x.event
    case Consume(_) => StreamTimed(interval, s, x);
    case StreamEnds => StreamTimed(interval, s, x);
    case StreamBreaks => StreamTimed(interval, s, x);
    case StopSpeech => StopMouthTimed(interval, s, x.faults, x.first);
    case Cancel => CancelTimed(interval, s, x.faults, x.first);
    case EndSession => CancelTimed(interval, s, x.faults, x.first);
    case CancelSettles(rejected) => SettleTimed(interval, s, rejected, x.faults, x.first);
    case Timeout => TimeOutTimed(interval, s, x.faults, x.first);
    case Steer =>
    case SteerSettles =>
    case CleanUp =>
  }

  /** The readings of the clock never go back. */
  predicate ClockRuns(inputs: seq<Input>) {
    && (forall k :: 0 <= k < |inputs| ==> inputs[k].first <= inputs[k].second)
    && (forall k :: 0 < k < |inputs| ==> inputs[k - 1].second <= inputs[k].first)
  }

  lemma {:induction false} RunTimed(interval: real, inputs: seq<Input>)
    requires inputs != [] && ClockRuns(inputs)
    ensures Timed(interval, Run(interval, inputs), inputs[|inputs| - 1].second)
    decreases |inputs|
  {
    var n := |inputs| - 1;
    var before := inputs[..n];
    if n > 0 {
      RunTimed(interval, before);
      assert before[n - 1].second <= inputs[n].first;
    }
    StepTimed(interval, Run(interval, before), inputs[n]);
  }

  lemma {:induction false} QuietAt(log: seq<Entry>, limit: Option<real>, i: nat)
    requires QuietSince(log, limit) && i < |log|
    ensures NotAfter(log[i], limit)
    decreases |log|
  {
    if i < |log| - 1 { QuietAt(log[..|log| - 1], limit, i); }
  }

  lemma {:induction false} PacedAt(interval: real, log: seq<Entry>, i: nat, j: nat)
    requires Paced(interval, log) && i < j < |log| && IsGated(log[j]) && AudibleAt(log[i]).Some?
    ensures AudibleAt(log[i]).value + interval <= log[j].at
    decreases |log|
  {
    if j < |log| - 1 {
      PacedAt(interval, log[..|log| - 1], i, j);
    } else {
      QuietAt(log[..j], Some(log[j].at - interval), i);
    }
  }

  /** Under a clock that never goes back, every milestone that is not terminal narration comes at
      least the interval after everything heard or silenced before it, in every interleaving. */
  lemma MilestonesKeepTheirDistance(interval: real, inputs: seq<Input>, i: nat, j: nat)
    requires ClockRuns(inputs) && i < j < |Run(interval, inputs).log|
    requires IsGated(Run(interval, inputs).log[j]) && AudibleAt(Run(interval, inputs).log[i]).Some?
    ensures AudibleAt(Run(interval, inputs).log[i]).value + interval <= Run(interval, inputs).log[j].at
  {
    RunTimed(interval, inputs);
    PacedAt(interval, Run(interval, inputs).log, i, j);
  }

  // ----- order -----

  predicate IsMilestone(e: Entry) {
    e.Spoke? && e.kind.Milestone?
  }

  /** Every milestone spoken so far was described before the one with this number. */
  predicate AllBefore(log: seq<Entry>, number: nat) {
    log != [] ==>
      && AllBefore(log[..|log| - 1], number)
      && (IsMilestone(log[|log| - 1]) ==> log[|log| - 1].said.number < number)
  }

  /** Milestones are spoken in the order they were described, none of them twice. */
  predicate InOrder(log: seq<Entry>) {
    log != [] ==>
      var before, e := log[..|log| - 1], log[|log| - 1];
      InOrder(before) && (IsMilestone(e) ==> AllBefore(before, e.said.number))
  }

  /** What is staged is newer than all that was spoken. */
  ghost predicate OrderedLog(log: seq<Entry>, described: nat, pending: Option<Staged>) {
    && InOrder(log)
    && AllBefore(log, described)
    && (pending.Some? ==> AllBefore(log, pending.value.number) && pending.value.number < described)
  }

  ghost predicate Ordered(s: State) {
    OrderedLog(s.log, s.described, s.pending)
  }

  lemma {:induction false} BeforeLater(log: seq<Entry>, number: nat, later: nat)
    requires AllBefore(log, number) && number <= later
    ensures AllBefore(log, later)
    decreases |log|
  {
    if log != [] { BeforeLater(log[..|log| - 1], number, later); }
  }

  lemma PushBefore(log: seq<Entry>, e: Entry, number: nat)
    ensures AllBefore(log + [e], number) <==> AllBefore(log, number) && (IsMilestone(e) ==> e.said.number < number)
  {
    assert (log + [e])[..|log|] == log;
  }

  lemma PushOrder(log: seq<Entry>, e: Entry)
    ensures InOrder(log + [e]) <==> InOrder(log) && (IsMilestone(e) ==> AllBefore(log, e.said.number))
  {
    assert (log + [e])[..|log|] == log;
  }

  /** One more entry: a milestone has to be newer than what was spoken and older than what is
      staged; any other entry fits. */
  lemma EntryOrdered(log: seq<Entry>, described: nat, pending: Option<Staged>, e: Entry)
    requires OrderedLog(log, described, pending) && (IsMilestone(e) ==> AllBefore(log, e.said.number))
    ensures OrderedLog(log + [e], described, pending) <==>
      (IsMilestone(e) ==> e.said.number < described && (pending.Some? ==> e.said.number < pending.value.number))
  {
    PushOrder(log, e);
    PushBefore(log, e, described);
    if pending.Some? { PushBefore(log, e, pending.value.number); }
  }

  lemma OtherEntryOrdered(s: State, e: Entry)
    requires Ordered(s) && !IsMilestone(e)
    ensures Ordered(Log(s, e))
  {
    EntryOrdered(s.log, s.described, s.pending, e);
  }

  /** Delivering leaves the log as it is or adds the one entry. */
  lemma DeliverAddsOne(s: State, kind: Kind, said: Staged, at: real, gated: bool, throws: bool)
    ensures var r := Deliver(s, kind, said, at, gated, throws).state;
      && r.described == s.described && r.pending == s.pending
      && r.log == if s.terminal || throws || !(s.life.speaking || IsLive(s.life.execution)) then s.log
                  else s.log + [Spoke(kind, said, at, gated)]
  {
  }

  lemma DeliverOrdered(s: State, kind: Kind, said: Staged, at: real, gated: bool, throws: bool)
    requires Ordered(s) && s.pending.None?
    requires kind.Milestone? ==> AllBefore(s.log, said.number) && said.number < s.described
    ensures var r := Deliver(s, kind, said, at, gated, throws).state; Ordered(r) && r.pending.None?
  {
    DeliverAddsOne(s, kind, said, at, gated, throws);
    EntryOrdered(s.log, s.described, s.pending, Spoke(kind, said, at, gated));
  }

  lemma FlushOrdered(interval: real, s: State, at: real, throws: bool)
    requires Ordered(s)
    ensures Ordered(FlushPendingMilestone(interval, s, at, throws).state)
  {
    if s.pending.Some? {
      DeliverOrdered(s.(pending := None), Milestone, s.pending.value, at, true, throws);
    }
  }

  lemma ReportOrdered(s: State, state: Execution, throws: bool)
    requires Ordered(s)
    ensures Ordered(ReportTerminal(s, state, throws).state)
  {
    OtherEntryOrdered(s, Reported(state));
  }

  lemma FinishOrdered(s: State, state: Execution, throws: bool)
    requires Ordered(s)
    ensures Ordered(FinishRun(s, state, throws).state)
  {
    if Finish(s.life, state).Some? {
      ReportOrdered(s.(pending := None, life := Finish(s.life, state).value), state, throws);
    }
  }

  lemma FailOrdered(s: State, stopSpeech: bool, stopThrows: bool, throws: bool)
    requires Ordered(s)
    ensures Ordered(FailRun(s, stopSpeech, stopThrows, throws).state)
  {
    if Fail(s.life).Some? {
      ReportOrdered(s.(pending := None, life := Fail(s.life).value), Failed, throws);
    }
  }

  /** Speaking the newest milestone while an older one stays staged. */
  predicate SpeaksPast(interval: real, s: State, at: real, throws: bool) {
    s.pending.Some? && Ripe(interval, s, at) && !s.terminal && !throws && (s.life.speaking || IsLive(s.life.execution))
  }

  lemma SpeakOrdered(interval: real, s: State, text: string, at: real, throws: bool)
    requires Ordered(s)
    ensures Ordered(SpeakMilestone(interval, s, text, at, throws).state) <==> !SpeaksPast(interval, s, at, throws)
  {
    var said, t := Staged(text, s.described), s.(described := s.described + 1);
    BeforeLater(s.log, s.described, t.described);
    if Ripe(interval, t, at) {
      DeliverAddsOne(t, Milestone, said, at, true, throws);
      EntryOrdered(t.log, t.described, t.pending, Spoke(Milestone, said, at, true));
    }
  }

  /** What a tool event does after the flush. */
  lemma RestOfToolOrdered(interval: real, s: State, milestone: Option<string>, f: Faults, at: real)
    requires Ordered(s)
    ensures Ordered(RestOfTool(interval, s, milestone, f, at).state) <==>
      !(milestone.Some? && !f.describe && SpeaksPast(interval, s, at, f.speak))
  {
    if milestone.Some? { SpeakOrdered(interval, s, milestone.value, at, f.speak); }
  }

  /** After a flush nothing is staged unless it was too early, and then nothing has changed. */
  lemma FlushClears(interval: real, s: State, at: real, throws: bool)
    ensures var r := FlushPendingMilestone(interval, s, at, throws);
      r == Done(s) || r.state.pending.None?
    ensures s.pending.Some? && !Ripe(interval, s, at) ==> FlushPendingMilestone(interval, s, at, throws) == Done(s)
    ensures s.pending.Some? && Ripe(interval, s, at) ==>
      FlushPendingMilestone(interval, s, at, throws).state.pending.None?
  {
  }

  lemma ToolOrdered(interval: real, s: State, milestone: Option<string>, f: Faults, first: real, second: real)
    requires Ordered(s) && !s.terminal
    ensures Ordered(AcceptTool(interval, s, milestone, f, first, second).state) <==>
      !(milestone.Some? && !f.describe && !Ripe(interval, s, first) && SpeaksPast(interval, s, second, f.speak))
  {
    var flushed := FlushPendingMilestone(interval, s, first, f.flush);
    FlushOrdered(interval, s, first, f.flush);
    FlushClears(interval, s, first, f.flush);
    if flushed.Done? { RestOfToolOrdered(interval, flushed.state, milestone, f, second); }
  }

  lemma ThenCompleteOrdered(narration: Outcome, throws: bool)
    requires Ordered(narration.state)
    ensures Ordered(ThenComplete(narration, throws).state)
  {
    FinishOrdered(narration.state, Completed, throws);
  }

  lemma NarrateAndFinishOrdered(s: State, said: Staged, f: Faults, at: real)
    requires Ordered(s) && s.pending.None? && AllBefore(s.log, said.number) && said.number < s.described
    ensures Ordered(NarrateAndFinish(s, said, f, at).state)
  {
    DeliverOrdered(s, Milestone, said, at, false, f.speak);
    ThenCompleteOrdered(Deliver(s, Milestone, said, at, false, f.speak), f.report);
  }

  lemma ConcludeOrdered(s: State, milestone: Option<string>, f: Faults, at: real)
    requires Ordered(s)
    ensures Ordered(Conclude(s, milestone, f, at).state)
  {
    if milestone.None? {
      FinishOrdered(s, Completed, f.report);
    } else {
      BeforeLater(s.log, s.described, s.described + 1);
      NarrateAndFinishOrdered(Counted(s), Staged(milestone.value, s.described), f, at);
    }
  }

  lemma CompletionOrdered(interval: real, s: State, milestone: Option<string>, f: Faults, first: real, second: real)
    requires Ordered(s)
    ensures Ordered(AcceptCompletion(interval, s, milestone, f, first, second).state)
  {
    var flushed := FlushPendingMilestone(interval, s, first, f.flush);
    FlushOrdered(interval, s, first, f.flush);
    ConcludeOrdered(flushed.state, milestone, f, second);
  }

  lemma ThenFailOrdered(narration: Outcome, throws: bool)
    requires Ordered(narration.state)
    ensures Ordered(ThenFail(narration, throws).state)
  {
    if Finish(narration.state.life, Failed).Some? {
      ReportOrdered(narration.state.(life := Finish(narration.state.life, Failed).value), Failed, throws);
    }
  }

  lemma FailureOrdered(s: State, narration: string, f: Faults, at: real)
    requires Ordered(s)
    ensures Ordered(AcceptFailure(s, narration, f, at).state)
  {
    var t := s.(pending := None);
    DeliverOrdered(t, Failure, Staged(narration, s.described), at, false, f.speak);
    ThenFailOrdered(Deliver(t, Failure, Staged(narration, s.described), at, false, f.speak), f.report);
  }

  /** A tool event whose two readings of the clock fall on either side of the interval while a
      milestone is staged: too early to flush it, late enough to speak the event's own. */
  predicate Straddles(interval: real, s: State, e: AgentEvent, f: Faults, first: real, second: real) {
    && e.ToolEvent? && e.milestone.Some? && IsLive(s.life.execution) && s.pending.Some?
    && !f.fanOut && !f.describe && !f.speak
    && !Ripe(interval, s, first) && Ripe(interval, s, second)
  }

  lemma DispatchOrdered(interval: real, s: State, e: AgentEvent, f: Faults, first: real, second: real)
    requires Inv(s) && Ordered(s) && !s.terminal && !f.fanOut
    ensures Ordered(Dispatch(interval, s, e, f, first, second).state) <==> !Straddles(interval, s, e, f, first, second)
  {
    match e
    case TextFinal(text) =>
      DeliverOrdered(s.(pending := None), Answer, Staged(text, s.described), second, false, f.speak);
    case ToolEvent(milestone) => ToolOrdered(interval, s, milestone, f, first, second);
    case RunCompleted(milestone) => CompletionOrdered(interval, s, milestone, f, first, second);
    case RunFailed(narration) => FailureOrdered(s, narration, f, second);
    case RunCancelled => FinishOrdered(s, Cancelled, f.report);
    case RunStarted =>
    case RunSteered =>
    case TextDelta =>
  }

  lemma AcceptOrdered(interval: real, s: State, e: AgentEvent, f: Faults, first: real, second: real)
    requires Inv(s) && Ordered(s)
    ensures Ordered(Accept(interval, s, e, f, first, second).state) <==> !Straddles(interval, s, e, f, first, second)
  {
    var heard := Log(s, FannedOut(e));
    OtherEntryOrdered(s, FannedOut(e));
    if s.terminal {
    } else if s.life.execution.Cancelling? {
      FinishOrdered(heard, Cancelled, f.report);
      FinishOrdered(s, Cancelled, f.report);
    } else if !f.fanOut {
      FanOutKeeps(s, e);
      DispatchOrdered(interval, heard, e, f, first, second);
    }
  }

  predicate Overtakes(interval: real, s: State, x: Input) {
    x.event.Consume? && !s.calls.drained && Straddles(interval, s, x.event.event, x.faults, x.first, x.second)
  }

  lemma StraddlingDoesNotThrow(interval: real, s: State, e: AgentEvent, f: Faults, first: real, second: real)
    requires Inv(s) && Straddles(interval, s, e, f, first, second)
    ensures Accept(interval, s, e, f, first, second).Done?
  {
  }

  lemma ConsumeOrdered(interval: real, s: State, x: Input)
    requires Inv(s) && Ordered(s) && x.event.Consume? && !s.calls.drained
    ensures Ordered(Step(interval, s, x)) <==> !Overtakes(interval, s, x)
  {
    var f := x.faults;
    var r := Accept(interval, s, x.event.event, f, x.first, x.second);
    AcceptOrdered(interval, s, x.event.event, f, x.first, x.second);
    if Overtakes(interval, s, x) {
      StraddlingDoesNotThrow(interval, s, x.event.event, f, x.first, x.second);
    } else {
      FailOrdered(r.state, true, f.stop, f.report);
    }
  }

  lemma TakeCancelOrdered(s: State, f: Faults, at: real)
    requires Ordered(s)
    ensures Ordered(TakeCancel(s, f, at).state)
  {
    OtherEntryOrdered(s, CancelAccepted);
    OtherEntryOrdered(Log(s, CancelAccepted), Silenced(at));
  }

  lemma StopMouthOrdered(s: State, f: Faults, at: real)
    requires Ordered(s)
    ensures Ordered(StopMouth(s, f, at))
  {
    OtherEntryOrdered(s, Silenced(at));
  }

  lemma CancelOrdered(s: State, f: Faults, at: real)
    requires Ordered(s)
    ensures Ordered(CancelStep(s, f, at))
  {
    TakeCancelOrdered(s, f, at);
  }

  lemma EndSessionOrdered(s: State, f: Faults, at: real)
    requires Ordered(s)
    ensures Ordered(EndSessionStep(s, f, at))
  {
    TakeCancelOrdered(s, f, at);
  }

  lemma SettleOrdered(s: State, rejected: bool, f: Faults)
    requires Ordered(s)
    ensures Ordered(SettleCancel(s, rejected, f))
  {
    FailOrdered(s.(calls := s.calls.(cancelCall := Settled)), false, false, f.report);
  }

  lemma TimeOutOrdered(s: State, f: Faults)
    requires Ordered(s)
    ensures Ordered(TimeOut(s, f))
  {
    if s.calls.ending > 0 {
      FailOrdered(CloseRun(s.(calls := s.calls.(ending := s.calls.ending - 1))), false, false, f.report);
    }
  }

  lemma EndOrdered(interval: real, s: State, x: Input)
    requires Ordered(s) && (x.event.StreamEnds? || x.event.StreamBreaks?)
    ensures Ordered(Step(interval, s, x))
  {
    var f := x.faults;
    FailOrdered(s, true, f.stop, f.report);
    FailOrdered(FailRun(s, true, f.stop, f.report).state, true, f.stopAgain, f.report);
  }

  /** A step keeps the order exactly when it is not such an event. */
  lemma OrderKeptIff(interval: real, s: State, x: Input)
    requires Inv(s) && Ordered(s)
    ensures Ordered(Step(interval, s, x)) <==> !Overtakes(interval, s, x)
  {
    match x.event
    case Consume(_) => if !s.calls.drained { ConsumeOrdered(interval, s, x); }
    case StreamEnds => EndOrdered(interval, s, x);
    case StreamBreaks => EndOrdered(interval, s, x);
    case StopSpeech => StopMouthOrdered(s, x.faults, x.first);
    case Cancel => CancelOrdered(s, x.faults, x.first);
    case EndSession => EndSessionOrdered(s, x.faults, x.first);
    case CancelSettles(rejected) => SettleOrdered(s, rejected, x.faults);
    case Timeout => TimeOutOrdered(s, x.faults);
    case Steer =>
    case SteerSettles =>
    case CleanUp =>
  }

  lemma {:induction false} RunOrdered(interval: real, inputs: seq<Input>)
    requires forall k :: 0 <= k < |inputs| ==> !Overtakes(interval, Run(interval, inputs[..k]), inputs[k])
    ensures Ordered(Run(interval, inputs))
    decreases |inputs|
  {
    if inputs != [] {
      var before := inputs[..|inputs| - 1];
      forall k | 0 <= k < |before| ensures !Overtakes(interval, Run(interval, before[..k]), before[k]) {
        assert before[..k] == inputs[..k];
      }
      RunOrdered(interval, before);
      RunKeeps(interval, before);
      OrderKeptIff(interval, Run(interval, before), inputs[|inputs| - 1]);
    }
  }

  lemma {:induction false} BeforeAt(log: seq<Entry>, number: nat, i: nat)
    requires AllBefore(log, number) && i < |log| && IsMilestone(log[i])
    ensures log[i].said.number < number
    decreases |log|
  {
    if i < |log| - 1 { BeforeAt(log[..|log| - 1], number, i); }
  }

  lemma {:induction false} InOrderAt(log: seq<Entry>, i: nat, j: nat)
    requires InOrder(log) && i < j < |log| && IsMilestone(log[i]) && IsMilestone(log[j])
    ensures log[i].said.number < log[j].said.number
    decreases |log|
  {
    if j < |log| - 1 {
      InOrderAt(log[..|log| - 1], i, j);
    } else {
      BeforeAt(log[..j], log[j].said.number, i);
    }
  }

  /** Unless an event straddles the interval, milestones are heard in the order they were
      described and none is heard twice. */
  lemma MilestonesInOrder(interval: real, inputs: seq<Input>, i: nat, j: nat)
    requires forall k :: 0 <= k < |inputs| ==> !Overtakes(interval, Run(interval, inputs[..k]), inputs[k])
    requires i < j < |Run(interval, inputs).log|
    requires IsMilestone(Run(interval, inputs).log[i]) && IsMilestone(Run(interval, inputs).log[j])
    ensures Run(interval, inputs).log[i].said.number < Run(interval, inputs).log[j].said.number
  {
    RunOrdered(interval, inputs);
    InOrderAt(Run(interval, inputs).log, i, j);
  }

  lemma SpeakFirst(interval: real, s: State)
    requires s == Initial()
    ensures var t := Step(interval, s, Input(Consume(RunStarted), NO_FAULTS, 0.0, 0.0));
      var u := Step(interval, t, Input(Consume(ToolEvent(Some("A"))), NO_FAULTS, 0.0, 0.0));
      u.life == Lifecycle(Running, true) && !u.terminal && !u.calls.drained && u.pending.None?
        && u.lastAudible == Some(0.0) && u.described == 1
  {
  }

  lemma StageSecond(interval: real, s: State)
    requires interval > 0.0 && s.life == Lifecycle(Running, true) && !s.terminal && !s.calls.drained
    requires s.pending.None? && s.lastAudible == Some(0.0) && s.described == 1
    ensures var t := Step(interval, s, Input(Consume(ToolEvent(Some("B"))), NO_FAULTS, 0.0, 0.0));
      t == Log(s, FannedOut(ToolEvent(Some("B")))).(pending := Some(Staged("B", 1)), described := 2)
  {
  }

  lemma SpeakThird(interval: real, s: State)
    requires interval > 0.0 && s.life == Lifecycle(Running, true) && !s.terminal && !s.calls.drained
    requires s.pending == Some(Staged("B", 1)) && s.lastAudible == Some(0.0) && s.described == 2
    ensures var t := Step(interval, s, Input(Consume(ToolEvent(Some("C"))), NO_FAULTS, 0.0, interval));
      t == s.(log := s.log + [FannedOut(ToolEvent(Some("C"))), Spoke(Milestone, Staged("C", 2), interval, true)],
              lastAudible := Some(interval), described := 3)
  {
  }

  lemma FlushSecond(interval: real, s: State)
    requires interval > 0.0 && s.life == Lifecycle(Running, true) && !s.terminal && !s.calls.drained
    requires s.pending == Some(Staged("B", 1)) && s.lastAudible == Some(interval)
    ensures var t := Step(interval, s,
                          Input(Consume(ToolEvent(None)), NO_FAULTS, interval + interval, interval + interval));
      t.log == s.log + [FannedOut(ToolEvent(None)), Spoke(Milestone, Staged("B", 1), interval + interval, true)]
  {
  }

  /** With any positive interval a clock that crosses it within one event makes a replaced
      milestone heard after the newer one that should have replaced it. */
  lemma StaleMilestoneIsHeard(interval: real) returns (inputs: seq<Input>)
    requires interval > 0.0
    ensures ClockRuns(inputs)
    ensures var log := Run(interval, inputs).log;
      |log| >= 4 && log[|log| - 3] == Spoke(Milestone, Staged("C", 2), interval, true)
      && log[|log| - 1] == Spoke(Milestone, Staged("B", 1), interval + interval, true)
  {
    var x0 := Input(Consume(RunStarted), NO_FAULTS, 0.0, 0.0);
    var x1 := Input(Consume(ToolEvent(Some("A"))), NO_FAULTS, 0.0, 0.0);
    var x2 := Input(Consume(ToolEvent(Some("B"))), NO_FAULTS, 0.0, 0.0);
    var x3 := Input(Consume(ToolEvent(Some("C"))), NO_FAULTS, 0.0, interval);
    var x4 := Input(Consume(ToolEvent(None)), NO_FAULTS, interval + interval, interval + interval);
    RunStep(interval, [], x0);
    RunStep(interval, [] + [x0], x1);
    RunStep(interval, [] + [x0] + [x1], x2);
    RunStep(interval, [] + [x0] + [x1] + [x2], x3);
    RunStep(interval, [] + [x0] + [x1] + [x2] + [x3], x4);
    SpeakFirst(interval, Initial());
    StageSecond(interval, Run(interval, [] + [x0] + [x1]));
    SpeakThird(interval, Run(interval, [] + [x0] + [x1] + [x2]));
    FlushSecond(interval, Run(interval, [] + [x0] + [x1] + [x2] + [x3]));
    inputs := [] + [x0] + [x1] + [x2] + [x3] + [x4];
  }
}
