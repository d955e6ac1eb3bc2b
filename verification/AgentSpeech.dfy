/** What the user hears of an agent run (apps/realtime-gateway/src/agent-run-controller.ts:139-344):
    every answer, every failure and every completion, as long as no callback throws. */
module AgentSpeech {
  import opened Prelude
  import opened AgentRuns

  // ----- what one step adds to the log -----

  /** A staged milestone is spoken by the next event that looks at it, once the interval is over. */
  function Flushed(interval: real, s: State, at: real): seq<Entry> {
    if s.pending.None? || !Ripe(interval, s, at) then [] else [Spoke(Milestone, s.pending.value, at, true)]
  }

  /** The moment something was last heard, once the staged milestone has been looked at. */
  function HeardAt(interval: real, s: State, at: real): Option<real> {
    if Flushed(interval, s, at) == [] then s.lastAudible else Some(at)
  }

  /** A described milestone is spoken at once if the interval is over. */
  function OwnMilestone(interval: real, s: State, milestone: Option<string>, first: real, second: real): seq<Entry> {
    var last := HeardAt(interval, s, first);
    if milestone.Some? && (last.Some? ==> second - last.value >= interval)
    then [Spoke(Milestone, Staged(milestone.value, s.described), second, true)] else []
  }

  /** What an event of a run that has started and was not cancelled is followed by. */
  function LiveNews(interval: real, s: State, e: AgentEvent, first: real, second: real): seq<Entry> {
    match e
    case RunStarted => [Reported(Failed)]
    case TextFinal(text) => [Spoke(Answer, Staged(text, s.described), second, false)]
    case ToolEvent(milestone) => Flushed(interval, s, first) + OwnMilestone(interval, s, milestone, first, second)
    case RunCompleted(milestone) =>
      Flushed(interval, s, first)
      + (if milestone.Some? then [Spoke(Milestone, Staged(milestone.value, s.described), second, false)] else [])
      + [Reported(Completed)]
    case RunFailed(narration) => [Spoke(Failure, Staged(narration, s.described), second, false), Reported(Failed)]
    case RunCancelled => [Reported(Failed)]
    case RunSteered => []
    case TextDelta => []
  }

  /** Before the start nothing can be said: what would speak or end the run fails it. */
  function EarlyNews(e: AgentEvent): seq<Entry> {
    if e.RunStarted? || e.RunSteered? || e.TextDelta? || e == ToolEvent(None) then [] else [Reported(Failed)]
  }

  /** What one event of the stream adds to the log. */
  function EventNews(interval: real, s: State, e: AgentEvent, first: real, second: real): seq<Entry> {
    if s.terminal then []
    else if s.life.execution.Cancelling? then
      if e.RunCancelled? then [FannedOut(e), Reported(Cancelled)]
      else if e.RunCompleted? || e.RunFailed? then [Reported(Cancelled)]
      else []
    else [FannedOut(e)] + if s.life.execution.Idle? then EarlyNews(e) else LiveNews(interval, s, e, first, second)
  }

  /** What one step adds to the log when no callback throws. */
  function News(interval: real, s: State, x: Input): seq<Entry> {
    match x.event
    case Consume(e) => if s.calls.drained then [] else EventNews(interval, s, e, x.first, x.second)
    case StreamEnds => if s.calls.drained || s.terminal then [] else [Reported(Failed)]
    case StreamBreaks => if s.calls.drained || s.terminal then [] else [Reported(Failed)]
    case StopSpeech => if s.life.speaking then [Silenced(x.first)] else []
    case Cancel => if IsLive(s.life.execution) then [CancelAccepted, Silenced(x.first)] else []
    case EndSession => if IsLive(s.life.execution) then [CancelAccepted, Silenced(x.first)] else []
    case CancelSettles(rejected) =>
      if rejected && s.calls.cancelCall.Outstanding? && !s.terminal then [Reported(Failed)] else []
    case Timeout => if s.calls.ending > 0 && !s.terminal then [Reported(Failed)] else []
    case _ => []
  }

  /** Before the start nothing is staged and nothing was heard. */
  predicate NothingEarly(s: State) {
    s.life.execution.Idle? ==> s.pending.None? && s.lastAudible.None? && !Read(s.log).started
  }

  // ----- one step -----

  lemma DeliverNews(s: State, kind: Kind, said: Staged, at: real, gated: bool)
    requires IsLive(s.life.execution) && !s.terminal
    ensures var r := Deliver(s, kind, said, at, gated, false);
      r.Done? && r.state == s.(life := s.life.(speaking := true), lastAudible := Some(at),
                               log := s.log + [Spoke(kind, said, at, gated)])
  {
  }

  lemma FlushNews(interval: real, s: State, at: real)
    requires IsLive(s.life.execution) && !s.terminal
    ensures var r := FlushPendingMilestone(interval, s, at, false);
      && r.Done? && r.state.log == s.log + Flushed(interval, s, at) && r.state.lastAudible == HeardAt(interval, s, at)
      && r.state.described == s.described && r.state.life.execution == s.life.execution && !r.state.terminal
      && r.state.reported == s.reported
  {
    assert s.log + [] == s.log;
    if s.pending.Some? { DeliverNews(s.(pending := None), Milestone, s.pending.value, at, true); }
  }

  /** The end of a live or a failed run is reported. */
  lemma ReportNews(s: State, state: Execution)
    requires !s.terminal && !s.reported
    ensures state.Completed? && IsLive(s.life.execution) ==>
      var r := FinishRun(s, state, false); r.Done? && r.state.terminal && r.state.log == s.log + [Reported(state)]
    ensures state.Cancelled? && s.life.execution.Cancelling? ==>
      var r := FinishRun(s, state, false); r.Done? && r.state.terminal && r.state.log == s.log + [Reported(state)]
    ensures !IsTerminal(s.life.execution) ==>
      var r := FailRun(s, true, false, false); r.Done? && r.state.log == s.log + [Reported(Failed)]
  {
  }

  lemma ToolNews(interval: real, s: State, milestone: Option<string>, first: real, second: real)
    requires IsLive(s.life.execution) && !s.terminal
    ensures var r := AcceptTool(interval, s, milestone, NO_FAULTS, first, second);
      && r.Done? && !r.state.terminal
      && r.state.log == s.log + (Flushed(interval, s, first) + OwnMilestone(interval, s, milestone, first, second))
  {
    FlushNews(interval, s, first);
    var t := FlushPendingMilestone(interval, s, first, false).state;
    if milestone.Some? {
      DeliverNews(t.(described := t.described + 1), Milestone, Staged(milestone.value, t.described), second, true);
    }
    assert t.log + [] == t.log && s.log + (Flushed(interval, s, first) + []) == s.log + Flushed(interval, s, first);
  }

  lemma CompletionNews(interval: real, s: State, milestone: Option<string>, first: real, second: real)
    requires IsLive(s.life.execution) && !s.terminal && !s.reported
    ensures var r := AcceptCompletion(interval, s, milestone, NO_FAULTS, first, second);
      && r.Done? && r.state.terminal
      && r.state.log == s.log + LiveNews(interval, s, RunCompleted(milestone), first, second)
  {
    FlushNews(interval, s, first);
    var t := FlushPendingMilestone(interval, s, first, false).state;
    if milestone.Some? {
      var said := Staged(milestone.value, t.described);
      DeliverNews(Counted(t), Milestone, said, second, false);
      ReportNews(Deliver(Counted(t), Milestone, said, second, false, false).state, Completed);
    } else {
      ReportNews(t, Completed);
    }
  }

  lemma FailureNews(s: State, narration: string, at: real)
    requires IsLive(s.life.execution) && !s.terminal && !s.reported
    ensures var r := AcceptFailure(s, narration, NO_FAULTS, at);
      && r.Done? && r.state.terminal
      && r.state.log == s.log + [Spoke(Failure, Staged(narration, s.described), at, false), Reported(Failed)]
  {
    DeliverNews(s.(pending := None), Failure, Staged(narration, s.described), at, false);
  }

  /** The stream's own handler fails a run whose event could not be handled. */
  lemma ThrownNews(interval: real, s: State, e: AgentEvent, first: real, second: real)
    requires var r := Accept(interval, s, e, NO_FAULTS, first, second);
      r.Threw? && !r.state.terminal && !r.state.reported && !IsTerminal(r.state.life.execution)
    ensures var r := Accept(interval, s, e, NO_FAULTS, first, second);
      ConsumeOne(interval, s, e, NO_FAULTS, first, second).log == r.state.log + [Reported(Failed)]
  {
    hide Accept;
    ReportNews(Accept(interval, s, e, NO_FAULTS, first, second).state, Failed);
  }

  lemma EarlyEventNews(interval: real, s: State, e: AgentEvent, first: real, second: real)
    requires s.life == Lifecycle(Idle, false) && !s.terminal && !s.reported && NothingEarly(s)
    ensures ConsumeOne(interval, s, e, NO_FAULTS, first, second).log == s.log + ([FannedOut(e)] + EarlyNews(e))
  {
    var t := Log(s, FannedOut(e));
    assert t.log + [Reported(Failed)] == s.log + ([FannedOut(e)] + [Reported(Failed)]);
    assert [FannedOut(e)] + [] == [FannedOut(e)];
  }

  lemma LiveEventNews(interval: real, s: State, e: AgentEvent, first: real, second: real)
    requires IsLive(s.life.execution) && !s.terminal && !s.reported
    ensures ConsumeOne(interval, s, e, NO_FAULTS, first, second).log
         == s.log + ([FannedOut(e)] + LiveNews(interval, s, e, first, second))
  {
    var t := Log(s, FannedOut(e));
    var news := LiveNews(interval, s, e, first, second);
    assert Flushed(interval, t, first) == Flushed(interval, s, first);
    assert t.log + news == s.log + ([FannedOut(e)] + news) && t.log + [] == t.log;
    match e
    case TextFinal(text) => DeliverNews(t.(pending := None), Answer, Staged(text, s.described), second, false);
    case ToolEvent(milestone) => ToolNews(interval, t, milestone, first, second);
    case RunCompleted(milestone) => CompletionNews(interval, t, milestone, first, second);
    case RunFailed(narration) => FailureNews(t, narration, second);
    case _ =>
  }

  lemma CancellingEventNews(interval: real, s: State, e: AgentEvent, first: real, second: real)
    requires s.life.execution.Cancelling? && !s.terminal && !s.reported
    ensures ConsumeOne(interval, s, e, NO_FAULTS, first, second).log == s.log + EventNews(interval, s, e, first, second)
  {
    ReportNews(s, Cancelled);
    ReportNews(Log(s, FannedOut(e)), Cancelled);
    assert Log(s, FannedOut(e)).log + [Reported(Cancelled)] == s.log + [FannedOut(e), Reported(Cancelled)];
    assert s.log + [] == s.log;
  }

  lemma EndingNews(s: State, rejected: bool)
    requires Inv(s)
    ensures EndStream(s, NO_FAULTS).log == s.log + if s.terminal then [] else [Reported(Failed)]
    ensures FailRun(s, true, false, false).state.log == s.log + if s.terminal then [] else [Reported(Failed)]
    ensures SettleCancel(s, rejected, NO_FAULTS).log
         == s.log + if rejected && s.calls.cancelCall.Outstanding? && !s.terminal then [Reported(Failed)] else []
    ensures TimeOut(s, NO_FAULTS).log == s.log + if s.calls.ending > 0 && !s.terminal then [Reported(Failed)] else []
  {
    assert s.log + [] == s.log;
  }

  lemma CancelNews(s: State, at: real)
    requires Inv(s)
    ensures var news := if IsLive(s.life.execution) then [CancelAccepted, Silenced(at)] else [];
      CancelStep(s, NO_FAULTS, at).log == s.log + news && EndSessionStep(s, NO_FAULTS, at).log == s.log + news
  {
    hide Read, LifeOk, Orderly;
    assert s.log + [] == s.log;
    assert (s.log + [CancelAccepted]) + [Silenced(at)] == s.log + [CancelAccepted, Silenced(at)];
  }

  lemma ControlNews(interval: real, s: State, x: Input)
    requires Inv(s) && !x.event.Consume? && x.faults == NO_FAULTS
    ensures Step(interval, s, x).log == s.log + News(interval, s, x)
  {
    hide ConsumeOne, FailRun, EndStream, SettleCancel, TimeOut, CancelStep, EndSessionStep, Read, LifeOk, Orderly;
    assert s.log + [] == s.log;
    match x.event
    case StreamEnds => EndingNews(s, false);
    case StreamBreaks => EndingNews(s, false);
    case Cancel => CancelNews(s, x.first);
    case EndSession => CancelNews(s, x.first);
    case CancelSettles(rejected) => EndingNews(s, rejected);
    case Timeout => EndingNews(s, false);
    case _ =>
  }

  /** What each step of a run adds to the log, as long as no callback throws. */
  lemma StepNews(interval: real, s: State, x: Input)
    requires Inv(s) && NothingEarly(s) && x.faults == NO_FAULTS
    ensures Step(interval, s, x).log == s.log + News(interval, s, x)
  {
    hide ConsumeOne;
    if x.event.Consume? {
      var e := x.event.event;
      assert s.log + [] == s.log;
      if s.terminal {
        FrozenStep(interval, s, x);
      } else if !s.calls.drained {
        if s.life.execution.Cancelling? {
          CancellingEventNews(interval, s, e, x.first, x.second);
        } else if s.life.execution.Idle? {
          EarlyEventNews(interval, s, e, x.first, x.second);
        } else {
          LiveEventNews(interval, s, e, x.first, x.second);
        }
      }
    } else {
      ControlNews(interval, s, x);
    }
  }

  // ----- before the start, with callbacks throwing anywhere -----

  /** The run is where it was, or at `end`. */
  predicate StaysOr(s: State, t: State, end: Execution) {
    t.life.execution == s.life.execution || t.life.execution == end
  }

  predicate StaysOrEnds(s: State, t: State) {
    t.life.execution == s.life.execution || IsTerminal(t.life.execution)
  }

  lemma DeliverStays(s: State, kind: Kind, said: Staged, at: real, gated: bool, throws: bool)
    ensures Deliver(s, kind, said, at, gated, throws).state.life.execution == s.life.execution
  {
  }

  lemma FlushStays(interval: real, s: State, at: real, throws: bool)
    ensures FlushPendingMilestone(interval, s, at, throws).state.life.execution == s.life.execution
  {
    hide Deliver;
    if s.pending.Some? { DeliverStays(s.(pending := None), Milestone, s.pending.value, at, true, throws); }
  }

  lemma EndStays(s: State, end: Execution, throws: bool, stopSpeech: bool, stopThrows: bool)
    ensures StaysOr(s, FinishRun(s, end, throws).state, end)
    ensures StaysOr(s, FailRun(s, stopSpeech, stopThrows, throws).state, Failed)
  {
  }

  lemma ToolStays(interval: real, s: State, milestone: Option<string>, f: Faults, first: real, second: real)
    ensures AcceptTool(interval, s, milestone, f, first, second).state.life.execution == s.life.execution
  {
    hide Deliver, FlushPendingMilestone;
    FlushStays(interval, s, first, f.flush);
    var t := FlushPendingMilestone(interval, s, first, f.flush).state;
    if milestone.Some? {
      var said := Staged(milestone.value, t.described);
      DeliverStays(t.(described := t.described + 1), Milestone, said, second, true, f.speak);
    }
  }

  lemma CompletionStays(interval: real, s: State, milestone: Option<string>, f: Faults, first: real, second: real)
    ensures StaysOr(s, AcceptCompletion(interval, s, milestone, f, first, second).state, Completed)
  {
    hide Deliver, FlushPendingMilestone, FinishRun;
    FlushStays(interval, s, first, f.flush);
    var t := FlushPendingMilestone(interval, s, first, f.flush).state;
    EndStays(t, Completed, f.report, false, false);
    if milestone.Some? {
      var said := Staged(milestone.value, t.described);
      DeliverStays(Counted(t), Milestone, said, second, false, f.speak);
      EndStays(Deliver(Counted(t), Milestone, said, second, false, f.speak).state, Completed, f.report, false, false);
    }
  }

  lemma FailureStays(s: State, narration: string, f: Faults, at: real)
    ensures StaysOr(s, AcceptFailure(s, narration, f, at).state, Failed)
  {
    hide Deliver;
    DeliverStays(s.(pending := None), Failure, Staged(narration, s.described), at, false, f.speak);
  }

  lemma AcceptStaysStarted(interval: real, s: State, e: AgentEvent, f: Faults, first: real, second: real)
    requires !s.life.execution.Idle?
    ensures StaysOrEnds(s, Accept(interval, s, e, f, first, second).state)
  {
    hide Deliver, AcceptTool, AcceptCompletion, AcceptFailure, FinishRun;
    var t := Log(s, FannedOut(e));
    EndStays(s, Cancelled, f.report, false, false);
    EndStays(t, Cancelled, f.report, false, false);
    match e
    case TextFinal(text) =>
      DeliverStays(t.(pending := None), Answer, Staged(text, t.described), second, false, f.speak);
    case ToolEvent(milestone) => ToolStays(interval, t, milestone, f, first, second);
    case RunCompleted(milestone) => CompletionStays(interval, t, milestone, f, first, second);
    case RunFailed(narration) => FailureStays(t, narration, f, second);
    case _ =>
  }

  lemma ConsumingStaysStarted(interval: real, s: State, e: AgentEvent, f: Faults, first: real, second: real)
    requires !s.life.execution.Idle?
    ensures StaysOrEnds(s, ConsumeOne(interval, s, e, f, first, second))
  {
    hide Accept, FailRun;
    AcceptStaysStarted(interval, s, e, f, first, second);
    EndStays(Accept(interval, s, e, f, first, second).state, Failed, f.report, true, f.stop);
  }

  /** An idle run that accepts an event is started, over, or still has nothing staged or heard. */
  lemma IdleAccepts(interval: real, s: State, e: AgentEvent, f: Faults, first: real, second: real)
    requires s.life == Lifecycle(Idle, false) && NothingEarly(s)
    ensures NothingEarly(Accept(interval, s, e, f, first, second).state)
  {
    hide AcceptTool, AcceptCompletion, AcceptFailure;
    var t := Log(s, FannedOut(e));
    Push(s.log, FannedOut(e));
    if !e.RunStarted? { IdleSays(interval, t, e, f, first, second); }
  }

  lemma IdleSays(interval: real, s: State, e: AgentEvent, f: Faults, first: real, second: real)
    requires s.life == Lifecycle(Idle, false) && NothingEarly(s)
    ensures e.ToolEvent? ==> NothingEarly(AcceptTool(interval, s, e.milestone, f, first, second).state)
    ensures e.RunCompleted? ==> NothingEarly(AcceptCompletion(interval, s, e.milestone, f, first, second).state)
    ensures e.RunFailed? ==> NothingEarly(AcceptFailure(s, e.narration, f, second).state)
  {
    hide Read;
  }

  lemma FailKeepsEarly(s: State, stopSpeech: bool, stopThrows: bool, throws: bool)
    requires NothingEarly(s)
    ensures NothingEarly(FailRun(s, stopSpeech, stopThrows, throws).state)
  {
  }

  lemma ConsumingKeepsEarly(interval: real, s: State, e: AgentEvent, f: Faults, first: real, second: real)
    requires Inv(s) && NothingEarly(s)
    ensures NothingEarly(ConsumeOne(interval, s, e, f, first, second))
  {
    if s.life.execution.Idle? {
      hide Accept, FailRun;
      IdleAccepts(interval, s, e, f, first, second);
      FailKeepsEarly(Accept(interval, s, e, f, first, second).state, true, f.stop, f.report);
    } else {
      hide ConsumeOne;
      ConsumingStaysStarted(interval, s, e, f, first, second);
    }
  }

  lemma CancelKeepsEarly(s: State, f: Faults, at: real)
    requires Inv(s) && NothingEarly(s)
    ensures NothingEarly(CancelStep(s, f, at)) && NothingEarly(EndSessionStep(s, f, at))
  {
  }

  lemma EndingKeepsEarly(s: State, f: Faults, rejected: bool)
    requires NothingEarly(s)
    ensures NothingEarly(EndStream(s, f)) && NothingEarly(SettleCancel(s, rejected, f)) && NothingEarly(TimeOut(s, f))
  {
    hide FailRun;
    FailKeepsEarly(s, true, f.stop, f.report);
    FailKeepsEarly(FailRun(s, true, f.stop, f.report).state, true, f.stopAgain, f.report);
    FailKeepsEarly(s.(calls := s.calls.(cancelCall := Settled)), false, false, f.report);
    FailKeepsEarly(CloseRun(s.(calls := s.calls.(ending := Max(s.calls.ending - 1, 0)))), false, false, f.report);
  }

  lemma ControlKeepsEarly(interval: real, s: State, x: Input)
    requires Inv(s) && NothingEarly(s) && !x.event.Consume?
    ensures NothingEarly(Step(interval, s, x))
  {
    hide ConsumeOne, FailRun, EndStream, SettleCancel, TimeOut, CancelStep, EndSessionStep;
    match x.event
    case StreamEnds => EndingKeepsEarly(s, x.faults, false);
    case StreamBreaks => FailKeepsEarly(s, true, x.faults.stop, x.faults.report);
    case Cancel => CancelKeepsEarly(s, x.faults, x.first);
    case EndSession => CancelKeepsEarly(s, x.faults, x.first);
    case CancelSettles(rejected) => EndingKeepsEarly(s, x.faults, rejected);
    case Timeout => EndingKeepsEarly(s, x.faults, false);
    case _ =>
  }

  lemma {:induction false} RunKeepsEarly(interval: real, inputs: seq<Input>)
    ensures Inv(Run(interval, inputs)) && NothingEarly(Run(interval, inputs))
    decreases |inputs|
  {
    hide ConsumeOne;
    RunKeeps(interval, inputs);
    if inputs != [] {
      var before, x := inputs[..|inputs| - 1], inputs[|inputs| - 1];
      var s := Run(interval, before);
      RunKeepsEarly(interval, before);
      if x.event.Consume? {
        ConsumingKeepsEarly(interval, s, x.event.event, x.faults, x.first, x.second);
      } else {
        ControlKeepsEarly(interval, s, x);
      }
    }
  }

  // ----- what a log without faults looks like -----

  predicate IsSpeech(log: seq<Entry>, k: nat, kind: Kind, text: string) {
    k < |log| && log[k].Spoke? && log[k].kind == kind && log[k].said.text == text && !log[k].gated
  }

  predicate IsReport(log: seq<Entry>, k: nat, state: Execution) {
    k < |log| && log[k] == Reported(state)
  }

  /** A completion is narrated if it has a milestone, and reported right after. */
  predicate Concludes(log: seq<Entry>, k: nat, milestone: Option<string>) {
    if milestone.Some? then IsSpeech(log, k, Milestone, milestone.value) && IsReport(log, k + 1, Completed)
    else IsReport(log, k, Completed)
  }

  /** A completion is concluded, after a staged milestone perhaps. */
  predicate IsConcluded(log: seq<Entry>, k: nat, milestone: Option<string>) {
    Concludes(log, k, milestone)
    || (k < |log| && log[k].Spoke? && log[k].gated && Concludes(log, k + 1, milestone))
  }

  /** What follows an event at `j`. A staged milestone may be heard before a completion. */
  predicate IsFollowed(log: seq<Entry>, j: nat)
    requires j < |log|
  {
    var seen := Read(log[..j]);
    match log[j]
    case FannedOut(TextFinal(text)) =>
      if seen.started then IsSpeech(log, j + 1, Answer, text) else IsReport(log, j + 1, Failed)
    case FannedOut(RunFailed(narration)) =>
      if seen.started then IsSpeech(log, j + 1, Failure, narration) && IsReport(log, j + 2, Failed)
      else IsReport(log, j + 1, Failed)
    case FannedOut(RunCompleted(milestone)) =>
      if seen.started then IsConcluded(log, j + 1, milestone) else IsReport(log, j + 1, Failed)
    case FannedOut(RunCancelled) => IsReport(log, j + 1, if seen.cancelled then Cancelled else Failed)
    case _ => true
  }

  predicate IsAt(log: seq<Entry>, j: int, e: AgentEvent) {
    0 <= j < |log| && log[j] == FannedOut(e)
  }

  /** What is spoken at `j` says what an event said just before. */
  predicate IsCaused(log: seq<Entry>, j: nat)
    requires j < |log|
  {
    match log[j]
    case Spoke(Answer, said, _, _) => IsAt(log, j - 1, TextFinal(said.text))
    case Spoke(Failure, said, _, _) => IsAt(log, j - 1, RunFailed(said.text))
    case Spoke(Milestone, said, _, gated) =>
      !gated ==> IsAt(log, j - 1, RunCompleted(Some(said.text))) || IsAt(log, j - 2, RunCompleted(Some(said.text)))
    case _ => true
  }

  predicate IsTold(log: seq<Entry>, j: nat)
    requires j < |log|
  {
    IsFollowed(log, j) && IsCaused(log, j)
  }

  ghost predicate Told(log: seq<Entry>) {
    forall j :: 0 <= j < |log| ==> IsTold(log, j)
  }

  lemma StaysTold(log: seq<Entry>, more: seq<Entry>, j: nat)
    requires j < |log| && IsTold(log, j)
    ensures IsTold(log + more, j)
  {
    assert (log + more)[..j] == log[..j];
  }

  lemma ToldMore(log: seq<Entry>, more: seq<Entry>)
    requires Told(log) && forall j :: |log| <= j < |log + more| ==> IsTold(log + more, j)
    ensures Told(log + more)
  {
    forall j | 0 <= j < |log| ensures IsTold(log + more, j) { StaysTold(log, more, j); }
  }

  /** An entry that needs nothing around it. */
  predicate IsPlain(e: Entry) {
    match e
    case FannedOut(event) => !event.TextFinal? && !event.RunFailed? && !event.RunCompleted? && !event.RunCancelled?
    case Spoke(kind, _, _, gated) => kind.Milestone? && gated
    case _ => true
  }

  lemma PlainIsTold(log: seq<Entry>, more: seq<Entry>)
    requires Told(log) && forall j :: 0 <= j < |more| ==> IsPlain(more[j])
    ensures Told(log + more)
  {
    forall j | |log| <= j < |log + more| ensures IsTold(log + more, j) {
      assert (log + more)[j] == more[j - |log|];
    }
    ToldMore(log, more);
  }

  /** What `e` is followed by in a log that read as `seen` before it. */
  predicate NewsFits(seen: Seen, e: AgentEvent, news: seq<Entry>) {
    match e
    case TextFinal(text) =>
      if seen.started then |news| == 1 && IsSpeech(news, 0, Answer, text) else news == [Reported(Failed)]
    case RunFailed(narration) =>
      if seen.started then |news| == 2 && IsSpeech(news, 0, Failure, narration) && IsReport(news, 1, Failed)
      else news == [Reported(Failed)]
    case RunCompleted(milestone) =>
      if seen.started then
        (Concludes(news, 0, milestone) && |news| == (if milestone.Some? then 2 else 1))
        || (news != [] && IsPlain(news[0]) && news[0].Spoke? && Concludes(news, 1, milestone)
            && |news| == (if milestone.Some? then 3 else 2))
      else news == [Reported(Failed)]
    case RunCancelled => news == [Reported(if seen.cancelled then Cancelled else Failed)]
    case _ => forall j :: 0 <= j < |news| ==> IsPlain(news[j])
  }

  lemma EventIsTold(log: seq<Entry>, e: AgentEvent, news: seq<Entry>)
    requires Told(log) && NewsFits(Read(log), e, news)
    ensures Told(log + ([FannedOut(e)] + news))
  {
    var more, n := [FannedOut(e)] + news, |log|;
    var all := log + more;
    assert all[..n] == log && all[n] == FannedOut(e);
    forall j | n < j < |all| ensures all[j] == news[j - n - 1] && IsCaused(all, j) && IsFollowed(all, j) {
      assert all[j] == news[j - n - 1];
    }
    FollowsItself(log, e, news);
    ToldMore(log, more);
  }

  lemma Moves(before: seq<Entry>, news: seq<Entry>, j: nat)
    ensures |before + news| == |before| + |news|
    ensures j < |news| ==> (before + news)[|before| + j] == news[j]
  {
  }

  /** What is said of `news` holds of it behind `before` as well. */
  lemma NewsMove(before: seq<Entry>, news: seq<Entry>, j: nat, kind: Kind, text: string, state: Execution)
    ensures IsSpeech(news, j, kind, text) ==> IsSpeech(before + news, |before| + j, kind, text)
    ensures IsReport(news, j, state) ==> IsReport(before + news, |before| + j, state)
  {
    Moves(before, news, j);
  }

  lemma ConclusionMoves(before: seq<Entry>, news: seq<Entry>, j: nat, milestone: Option<string>)
    requires Concludes(news, j, milestone)
    ensures Concludes(before + news, |before| + j, milestone)
  {
    hide IsSpeech, IsReport;
    var text := if milestone.Some? then milestone.value else [];
    NewsMove(before, news, j, Milestone, text, Completed);
    NewsMove(before, news, j + 1, Milestone, text, Completed);
  }

  lemma CompletionFollows(before: seq<Entry>, news: seq<Entry>, seen: Seen, milestone: Option<string>)
    requires seen.started && NewsFits(seen, RunCompleted(milestone), news)
    ensures IsConcluded(before + news, |before|, milestone)
  {
    hide IsReport, IsSpeech, Concludes;
    if Concludes(news, 0, milestone) {
      ConclusionMoves(before, news, 0, milestone);
    } else {
      ConclusionMoves(before, news, 1, milestone);
      Moves(before, news, 0);
    }
  }

  lemma FollowsItself(log: seq<Entry>, e: AgentEvent, news: seq<Entry>)
    requires NewsFits(Read(log), e, news)
    ensures IsTold(log + ([FannedOut(e)] + news), |log|)
  {
    hide IsTold, NewsFits, Read;
    assert log + ([FannedOut(e)] + news) == log + [FannedOut(e)] + news;
    if e.RunCompleted? {
      CompletionIsTold(log, e.milestone, news);
    } else {
      OtherFollows(log, e, news);
    }
  }

  lemma CompletionIsTold(log: seq<Entry>, milestone: Option<string>, news: seq<Entry>)
    requires NewsFits(Read(log), RunCompleted(milestone), news)
    ensures IsTold(log + [FannedOut(RunCompleted(milestone))] + news, |log|)
  {
    hide Read, IsReport, IsSpeech, Concludes;
    var before := log + [FannedOut(RunCompleted(milestone))];
    var all := before + news;
    assert all[..|log|] == log && all[|log|] == FannedOut(RunCompleted(milestone));
    if Read(log).started {
      hide NewsFits;
      CompletionFollows(before, news, Read(log), milestone);
    } else {
      ReportFollows(before, news);
    }
  }

  lemma ReportFollows(before: seq<Entry>, news: seq<Entry>)
    requires news == [Reported(Failed)]
    ensures IsReport(before + news, |before|, Failed)
  {
  }

  lemma OtherFollows(log: seq<Entry>, e: AgentEvent, news: seq<Entry>)
    requires NewsFits(Read(log), e, news) && !e.RunCompleted?
    ensures IsTold(log + [FannedOut(e)] + news, |log|)
  {
    hide Read;
    var n, before := |log|, log + [FannedOut(e)];
    var all := before + news;
    assert all[..n] == log && all[n] == FannedOut(e);
    Moves(before, news, 0);
    Moves(before, news, 1);
  }

  lemma LiveNewsFits(interval: real, s: State, e: AgentEvent, first: real, second: real)
    requires Inv(s) && IsLive(s.life.execution)
    ensures NewsFits(Read(s.log), e, LiveNews(interval, s, e, first, second))
  {
    if e.RunCompleted? && e.milestone.Some? {
      var flushed := Flushed(interval, s, first);
      var own := Spoke(Milestone, Staged(e.milestone.value, s.described), second, false);
      assert LiveNews(interval, s, e, first, second) == flushed + [own, Reported(Completed)];
    }
  }

  lemma EarlyNewsFits(s: State, e: AgentEvent)
    requires Inv(s) && NothingEarly(s) && s.life.execution.Idle?
    ensures NewsFits(Read(s.log), e, EarlyNews(e))
  {
  }

  lemma EventIsToldInFull(interval: real, s: State, e: AgentEvent, first: real, second: real)
    requires Inv(s) && NothingEarly(s) && Told(s.log)
    ensures Told(s.log + EventNews(interval, s, e, first, second))
  {
    hide NewsFits, LiveNews, EarlyNews, Told, IsTold;
    var seen := Read(s.log);
    if s.terminal {
      PlainIsTold(s.log, []);
    } else if s.life.execution.Cancelling? {
      CancelledIsTold(interval, s, e, first, second);
    } else if s.life.execution.Idle? {
      EarlyNewsFits(s, e);
      EventIsTold(s.log, e, EarlyNews(e));
    } else {
      LiveNewsFits(interval, s, e, first, second);
      EventIsTold(s.log, e, LiveNews(interval, s, e, first, second));
    }
  }

  lemma CancelledIsTold(interval: real, s: State, e: AgentEvent, first: real, second: real)
    requires Inv(s) && s.life.execution.Cancelling? && Told(s.log)
    ensures Told(s.log + EventNews(interval, s, e, first, second))
  {
    hide Told;
    if e.RunCancelled? {
      assert [FannedOut(e)] + [Reported(Cancelled)] == [FannedOut(e), Reported(Cancelled)];
      EventIsTold(s.log, e, [Reported(Cancelled)]);
    } else {
      PlainIsTold(s.log, EventNews(interval, s, e, first, second));
    }
  }

  lemma StepIsTold(interval: real, s: State, x: Input)
    requires Inv(s) && NothingEarly(s) && x.faults == NO_FAULTS && Told(s.log)
    ensures Told(Step(interval, s, x).log)
  {
    hide Told, Step, EventNews, Inv;
    StepNews(interval, s, x);
    if x.event.Consume? && !s.calls.drained {
      EventIsToldInFull(interval, s, x.event.event, x.first, x.second);
    } else {
      PlainIsTold(s.log, News(interval, s, x));
    }
  }

  predicate Faultless(inputs: seq<Input>) {
    forall k :: 0 <= k < |inputs| ==> inputs[k].faults == NO_FAULTS
  }

  lemma {:induction false} RunIsTold(interval: real, inputs: seq<Input>)
    requires Faultless(inputs)
    ensures Told(Run(interval, inputs).log)
    decreases |inputs|
  {
    hide Step, Inv, NothingEarly;
    if inputs != [] {
      var before := inputs[..|inputs| - 1];
      RunIsTold(interval, before);
      RunKeepsEarly(interval, before);
      StepIsTold(interval, Run(interval, before), inputs[|inputs| - 1]);
    }
  }

  /** In every run in which no callback throws: once the run has started, every answer and every
      failure is spoken right after its event, a completion is narrated if it has something to say and
      then reported, a failure is reported; and nothing else is spoken as an answer or a failure. An
      event that would speak before the start fails the run. */
  lemma EveryAnswerIsHeard(interval: real, inputs: seq<Input>, j: nat)
    requires Faultless(inputs) && j < |Run(interval, inputs).log|
    ensures IsFollowed(Run(interval, inputs).log, j) && IsCaused(Run(interval, inputs).log, j)
  {
    RunIsTold(interval, inputs);
    assert IsTold(Run(interval, inputs).log, j);
  }

  // ----- steering -----

  /** A steering that is awaited belongs to a run that is being steered, was cancelled or is over. */
  predicate SteerOk(s: State) {
    s.calls.awaitingSteer ==>
      s.life.execution.Steering? || s.life.execution.Cancelling? || IsTerminal(s.life.execution)
  }

  lemma ConsumingKeepsSteer(interval: real, s: State, x: Input)
    requires Inv(s) && SteerOk(s) && x.event.Consume?
    ensures SteerOk(Step(interval, s, x))
  {
    var e, f := x.event.event, x.faults;
    if s.calls.awaitingSteer && !s.calls.drained {
      hide Accept, ConsumeOne;
      ConsumingStaysStarted(interval, s, e, f, x.first, x.second);
      if IsTerminal(s.life.execution) { FrozenStep(interval, s, x); }
    } else {
      ConsumingAwaitsNothing(interval, s, x);
    }
  }

  lemma ConsumingAwaitsNothing(interval: real, s: State, x: Input)
    requires x.event.Consume?
    ensures Step(interval, s, x).calls.awaitingSteer == s.calls.awaitingSteer
  {
    hide Accept;
  }

  lemma FailKeepsSteer(s: State, stopSpeech: bool, stopThrows: bool, throws: bool)
    requires SteerOk(s)
    ensures SteerOk(FailRun(s, stopSpeech, stopThrows, throws).state)
  {
  }

  lemma EndingKeepsSteer(s: State, f: Faults, rejected: bool)
    requires SteerOk(s)
    ensures SteerOk(EndStream(s, f)) && SteerOk(SettleCancel(s, rejected, f)) && SteerOk(TimeOut(s, f))
  {
    hide FailRun;
    FailKeepsSteer(s, true, f.stop, f.report);
    FailKeepsSteer(FailRun(s, true, f.stop, f.report).state, true, f.stopAgain, f.report);
    FailKeepsSteer(s.(calls := s.calls.(cancelCall := Settled)), false, false, f.report);
    FailKeepsSteer(CloseRun(s.(calls := s.calls.(ending := Max(s.calls.ending - 1, 0)))), false, false, f.report);
  }

  lemma CancelKeepsSteer(s: State, f: Faults, at: real)
    requires SteerOk(s)
    ensures SteerOk(CancelStep(s, f, at)) && SteerOk(EndSessionStep(s, f, at))
  {
  }

  lemma StepKeepsSteer(interval: real, s: State, x: Input)
    requires Inv(s) && SteerOk(s)
    ensures SteerOk(Step(interval, s, x))
  {
    hide ConsumeOne, FailRun, EndStream, SettleCancel, TimeOut, CancelStep, EndSessionStep, Inv;
    match x.event
    case Consume(_) => ConsumingKeepsSteer(interval, s, x);
    case StreamEnds => EndingKeepsSteer(s, x.faults, false);
    case StreamBreaks => FailKeepsSteer(s, true, x.faults.stop, x.faults.report);
    case Cancel => CancelKeepsSteer(s, x.faults, x.first);
    case EndSession => CancelKeepsSteer(s, x.faults, x.first);
    case CancelSettles(rejected) => EndingKeepsSteer(s, x.faults, rejected);
    case Timeout => EndingKeepsSteer(s, x.faults, false);
    case _ =>
  }

  lemma {:induction false} RunKeepsSteer(interval: real, inputs: seq<Input>)
    ensures SteerOk(Run(interval, inputs))
    decreases |inputs|
  {
    hide Step, Inv;
    if inputs != [] {
      RunKeepsSteer(interval, inputs[..|inputs| - 1]);
      RunKeeps(interval, inputs[..|inputs| - 1]);
      StepKeepsSteer(interval, Run(interval, inputs[..|inputs| - 1]), inputs[|inputs| - 1]);
    }
  }

  /** A running run accepts a steering and forgets what it had staged; when the executor settles it,
      whatever happened in between, the run is running again unless it was cancelled or ended. */
  lemma SteeredRunsAgain(interval: real, inputs: seq<Input>, x: Input)
    ensures var s, t := Run(interval, inputs), Step(interval, Run(interval, inputs), x);
      && (x.event.Steer? && s.life.execution.Running? && !s.terminal && !x.faults.drop ==>
            t.life.execution.Steering? && t.calls.awaitingSteer && t.pending.None? && t.log == s.log)
      && (x.event.SteerSettles? && s.calls.awaitingSteer ==>
            !t.calls.awaitingSteer && t.log == s.log
            && (t.life.execution.Running? || t.life.execution.Cancelling? || IsTerminal(t.life.execution))
            && (s.life.execution.Steering? <==> t.life.execution.Running?))
  {
    RunKeepsSteer(interval, inputs);
  }

  // ----- what is staged -----

  /** What a live run's event leaves staged: an answer or a failure supersedes it, a tool event speaks it
      or replaces it. */
  function StagedBy(interval: real, s: State, e: AgentEvent, first: real, second: real): Option<Staged> {
    match e
    case TextFinal(_) => None
    case ToolEvent(milestone) =>
      if milestone.Some? && OwnMilestone(interval, s, milestone, first, second) == []
      then Some(Staged(milestone.value, s.described))
      else if Flushed(interval, s, first) != [] then None
      else s.pending
    case _ => s.pending
  }

  /** What a step leaves staged while the run goes on. */
  function StagedNext(interval: real, s: State, x: Input): Option<Staged> {
    match x.event
    case Consume(e) => if IsLive(s.life.execution) then StagedBy(interval, s, e, x.first, x.second) else s.pending
    case StopSpeech => if s.life.speaking then None else s.pending
    case Steer => if s.life.execution.Running? then None else s.pending
    case Cancel => if IsLive(s.life.execution) then None else s.pending
    case EndSession => if IsLive(s.life.execution) then None else s.pending
    case _ => s.pending
  }

  lemma FlushStages(interval: real, s: State, at: real)
    requires IsLive(s.life.execution) && !s.terminal
    ensures FlushPendingMilestone(interval, s, at, false).state.pending
         == if Flushed(interval, s, at) != [] then None else s.pending
  {
  }

  lemma ToolStages(interval: real, s: State, milestone: Option<string>, first: real, second: real)
    requires IsLive(s.life.execution) && !s.terminal
    ensures var r := AcceptTool(interval, s, milestone, NO_FAULTS, first, second);
      r.Done? && r.state.pending == StagedBy(interval, s, ToolEvent(milestone), first, second)
  {
    hide FlushPendingMilestone;
    FlushNews(interval, s, first);
    FlushStages(interval, s, first);
  }

  lemma ConsumingStages(interval: real, s: State, e: AgentEvent, first: real, second: real)
    requires Inv(s) && NothingEarly(s) && !s.terminal
    ensures var t := ConsumeOne(interval, s, e, NO_FAULTS, first, second);
      if t.terminal then t.pending.None?
      else t.pending == (if IsLive(s.life.execution) then StagedBy(interval, s, e, first, second) else s.pending)
  {
    var u := Log(s, FannedOut(e));
    if IsLive(s.life.execution) {
      if e.ToolEvent? {
        hide AcceptTool;
        ToolNews(interval, u, e.milestone, first, second);
        ToolStages(interval, u, e.milestone, first, second);
      } else {
        OtherStages(interval, s, e, first, second);
      }
    } else {
      OtherStages(interval, s, e, first, second);
    }
  }

  lemma OtherStages(interval: real, s: State, e: AgentEvent, first: real, second: real)
    requires Inv(s) && NothingEarly(s) && !s.terminal && (IsLive(s.life.execution) ==> !e.ToolEvent?)
    ensures var t := ConsumeOne(interval, s, e, NO_FAULTS, first, second);
      if t.terminal then t.pending.None?
      else t.pending == (if IsLive(s.life.execution) then StagedBy(interval, s, e, first, second) else s.pending)
  {
    if IsLive(s.life.execution) {
      LiveStages(interval, s, e, first, second);
    } else if s.life.execution.Idle? {
      IdleStages(interval, s, e, first, second);
    } else {
      CancellingStages(interval, s, e, first, second);
    }
  }

  lemma LiveStages(interval: real, s: State, e: AgentEvent, first: real, second: real)
    requires IsLive(s.life.execution) && !s.terminal && !s.reported && !e.ToolEvent?
    ensures var t := ConsumeOne(interval, s, e, NO_FAULTS, first, second);
      if t.terminal then t.pending.None? else t.pending == StagedBy(interval, s, e, first, second)
  {
    var u := Log(s, FannedOut(e));
    if e.RunCompleted? {
      hide FlushPendingMilestone;
      FlushNews(interval, u, first);
    }
  }

  lemma IdleStages(interval: real, s: State, e: AgentEvent, first: real, second: real)
    requires s.life == Lifecycle(Idle, false) && NothingEarly(s) && !s.terminal && !s.reported
    ensures ConsumeOne(interval, s, e, NO_FAULTS, first, second).pending.None?
  {
  }

  lemma CancellingStages(interval: real, s: State, e: AgentEvent, first: real, second: real)
    requires s.life.execution.Cancelling? && !s.terminal && !s.reported
    ensures var t := ConsumeOne(interval, s, e, NO_FAULTS, first, second);
      if t.terminal then t.pending.None? else t.pending == s.pending
  {
  }

  lemma EndingStages(s: State, rejected: bool)
    requires Inv(s)
    ensures var t := EndStream(s, NO_FAULTS); t.terminal && t.pending.None?
    ensures var t := FailRun(s, true, false, false).state; t.terminal && t.pending.None?
    ensures var t := SettleCancel(s, rejected, NO_FAULTS);
      if t.terminal then t.pending.None? else t.pending == s.pending
    ensures var t := TimeOut(s, NO_FAULTS); if t.terminal then t.pending.None? else t.pending == s.pending
  {
  }

  lemma ControlStages(interval: real, s: State, x: Input)
    requires Inv(s) && !x.event.Consume? && x.faults == NO_FAULTS
    ensures var t := Step(interval, s, x);
      if t.terminal then t.pending.None?
      else t.pending == StagedNext(interval, s, x)
  {
    hide FailRun, EndStream, SettleCancel, TimeOut;
    match x.event
    case StreamEnds => EndingStages(s, false);
    case StreamBreaks => EndingStages(s, false);
    case CancelSettles(rejected) => EndingStages(s, rejected);
    case Timeout => EndingStages(s, false);
    case _ =>
  }

  /** A staged milestone waits for the next event that looks at it: it is dropped by an answer, a failure,
      a stop of the mouth, an accepted steering or cancel and the end of the run, and replaced by
      the next milestone that cannot be heard yet. */
  lemma StagedMilestoneWaits(interval: real, inputs: seq<Input>, x: Input)
    requires x.faults == NO_FAULTS
    ensures var s, t := Run(interval, inputs), Step(interval, Run(interval, inputs), x);
      if t.terminal then t.pending.None?
      else t.pending == if s.calls.drained && x.event.Consume? then s.pending else StagedNext(interval, s, x)
  {
    RunKeepsEarly(interval, inputs);
    var s := Run(interval, inputs);
    if x.event.Consume? {
      if s.terminal {
        FrozenStep(interval, s, x);
      } else if !s.calls.drained {
        hide ConsumeOne;
        ConsumingStages(interval, s, x.event.event, x.first, x.second);
      }
    } else {
      ControlStages(interval, s, x);
    }
  }

  // ----- what the executor is told -----

  /** The executor has been asked to cancel. */
  predicate AskedToCancel(s: State) {
    s.calls.cancelCall != NotCalled
  }

  /** A cancel that is accepted and a hang-up of a run that is not over ask the executor to cancel; a hang-up of
      a run that is over, a rejected cancel, a hang-up whose cancel has settled and its deadline close
      it; nothing else calls it. With `ShutdownIsBounded`, each is called once at most. */
  lemma ExecutorIsTold(interval: real, inputs: seq<Input>, x: Input)
    requires x.faults == NO_FAULTS
    ensures CallsFit(Run(interval, inputs), Step(interval, Run(interval, inputs), x), x.event)
  {
    var s := Run(interval, inputs);
    RunKeeps(interval, inputs);
    if x.event.Consume? {
      ConsumingCallsNobody(interval, s, x);
    } else {
      ControlsCall(interval, s, x);
    }
  }

  /** The step is the one that asks the executor to cancel, or closes it. */
  predicate CallsFit(s: State, t: State, e: Event) {
    && (AskedToCancel(t) <==>
          AskedToCancel(s) || (e.Cancel? && IsLive(s.life.execution)) || (e.EndSession? && !s.terminal))
    && (t.calls.closeCalls > 0 <==>
          s.calls.closeCalls > 0
          || (e.EndSession? && s.terminal)
          || (e.CancelSettles? && e.rejected && s.calls.cancelCall.Outstanding?)
          || (e.CleanUp? && s.calls.ending > 0 && s.calls.cancelCall.Settled?)
          || (e.Timeout? && s.calls.ending > 0))
  }

  lemma ConsumingCallsNobody(interval: real, s: State, x: Input)
    requires x.event.Consume?
    ensures CallsFit(s, Step(interval, s, x), x.event)
  {
    hide Accept;
  }

  lemma ControlsCall(interval: real, s: State, x: Input)
    requires Inv(s) && !x.event.Consume? && x.faults == NO_FAULTS
    ensures CallsFit(s, Step(interval, s, x), x.event)
  {
    hide FailRun, EndSessionStep, SettleCancel, Inv, CallsFit;
    match x.event
    case EndSession => HangUpCalls(s, x.first);
    case CancelSettles(rejected) => SettlingCalls(s, rejected);
    case _ => OtherControlsCall(interval, s, x);
  }

  lemma HangUpCalls(s: State, at: real)
    requires Inv(s)
    ensures CallsFit(s, EndSessionStep(s, NO_FAULTS, at), EndSession)
  {
    hide TakeCancel;
    TakesCancel(s, at);
  }

  lemma SettlingCalls(s: State, rejected: bool)
    requires Inv(s)
    ensures CallsFit(s, SettleCancel(s, rejected, NO_FAULTS), CancelSettles(rejected))
  {
    hide FailRun;
    FailsWithoutThrow(s.(calls := s.calls.(cancelCall := Settled)));
  }

  lemma OtherControlsCall(interval: real, s: State, x: Input)
    requires Inv(s) && x.faults == NO_FAULTS && !x.event.Consume? && !x.event.EndSession? && !x.event.CancelSettles?
    ensures CallsFit(s, Step(interval, s, x), x.event)
  {
    hide FailRun, TakeCancel, ConsumeOne, SettleCancel, EndSessionStep, Read, LifeOk, Orderly;
    TakesCancel(s, x.first);
  }

  lemma TakesCancel(s: State, at: real)
    ensures TakeCancel(s, NO_FAULTS, at).Done? && TakeCancel(s, NO_FAULTS, at).state.terminal == s.terminal
  {
  }

  lemma FailsWithoutThrow(s: State)
    requires s.terminal == IsTerminal(s.life.execution)
    ensures FailRun(s, false, false, false).Done?
  {
  }

  // ----- the end of the stream, and callbacks that throw -----

  /** The event loop ends with the event that ends the run, or with the stream. */
  lemma DrainsWithTheRun(interval: real, inputs: seq<Input>, x: Input)
    requires x.faults == NO_FAULTS
    ensures var s, t := Run(interval, inputs), Step(interval, Run(interval, inputs), x);
      t.calls.drained <==>
        s.calls.drained || x.event.StreamEnds? || x.event.StreamBreaks? || (x.event.Consume? && t.terminal)
  {
    hide Step, Run, Inv;
    var s := Run(interval, inputs);
    RunKeeps(interval, inputs);
    if x.event.Consume? || x.event.StreamEnds? || x.event.StreamBreaks? {
      if !s.calls.drained && x.event.Consume? { ConsumedEndReportsIff(interval, s, x); }
      StreamDrains(interval, s, x);
    } else {
      ControlsDoNotDrain(interval, s, x);
    }
  }

  lemma StreamDrains(interval: real, s: State, x: Input)
    ensures var t := Step(interval, s, x);
      && (x.event.Consume? && !s.calls.drained && t.terminal ==> t.calls.drained)
      && (x.event.Consume? && s.calls.drained ==> t == s)
      && (x.event.StreamEnds? || x.event.StreamBreaks? ==> t.calls.drained)
  {
    hide Accept, FailRun;
  }

  const FAN_OUT_THROWS := NO_FAULTS.(fanOut := true)
  const TEXT_THROWS := NO_FAULTS.(narrate := true)
  const DROP_THROWS := NO_FAULTS.(drop := true)
  const STOP_THROWS := NO_FAULTS.(stop := true)
  const REPORT_THROWS := NO_FAULTS.(report := true)

  /** A fan-out that throws fails the run without narrating the event; a failure whose text cannot be found is
      fanned out and reported but not spoken. */
  lemma ThrowingEventsFail(interval: real, s: State, e: AgentEvent, first: real, second: real)
    requires Inv(s) && IsLive(s.life.execution)
    ensures ConsumeOne(interval, s, e, FAN_OUT_THROWS, first, second).log == s.log + [Reported(Failed)]
    ensures e.RunFailed? ==>
      ConsumeOne(interval, s, e, TEXT_THROWS, first, second).log == s.log + [FannedOut(e)] + [Reported(Failed)]
  {
  }

  /** What a throwing callback leaves undone: a steering whose queue drop throws is begun and never awaited; a
      mouth whose stop throws is taken for silent, keeping what was staged; a cancel whose stop throws
      is accepted but the executor is not told; a rejected cancel whose report throws does not close
      the executor. */
  lemma ThrowingControls(s: State, at: real)
    requires Inv(s)
    ensures s.life.execution.Running? ==>
      BeginSteer(s, DROP_THROWS) == s.(life := s.life.(execution := Steering))
    ensures s.life.speaking ==> StopMouth(s, STOP_THROWS, at) == s.(life := s.life.(speaking := false))
    ensures IsLive(s.life.execution) ==>
      CancelStep(s, STOP_THROWS, at) == Log(s.(life := Lifecycle(Cancelling, false)), CancelAccepted)
    ensures s.calls.cancelCall.Outstanding? && !s.terminal ==>
      var t := SettleCancel(s, true, REPORT_THROWS); t.terminal && t.calls.closeCalls == s.calls.closeCalls
  {
  }
}
