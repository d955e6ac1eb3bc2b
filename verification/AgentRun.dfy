/** One agent run (apps/realtime-gateway/src/agent-run-controller.ts) over the checked lifecycle
    of packages/agent-executor/src/index.ts. A step is what the controller does between two
    awaits. Every injected callback may throw; `log` records what the outside can observe. */
module AgentRuns {
  import opened Prelude

  // ----- the lifecycle: None stands for a transition that throws -----

  datatype Execution = Idle | Running | Steering | Cancelling | Completed | Failed | Cancelled

  datatype Lifecycle = Lifecycle(execution: Execution, speaking: bool)

  predicate IsTerminal(e: Execution) {
    e.Completed? || e.Failed? || e.Cancelled?
  }

  predicate IsLive(e: Execution) {
    e.Running? || e.Steering?
  }

  function StartExecution(l: Lifecycle): Option<Lifecycle> {
    if l.execution.Idle? then Some(l.(execution := Running)) else None
  }

  function StartSpeech(l: Lifecycle): Option<Lifecycle> {
    if IsLive(l.execution) && !l.speaking then Some(l.(speaking := true)) else None
  }

  function BeginSteering(l: Lifecycle): Option<Lifecycle> {
    if l.execution.Running? then Some(l.(execution := Steering)) else None
  }

  function FinishSteering(l: Lifecycle): Option<Lifecycle> {
    if l.execution.Steering? then Some(l.(execution := Running)) else None
  }

  datatype Reply = Accepted | Declined | Refused

  /** Declined stands for the answer false, Refused for a throw. */
  function CancelReply(l: Lifecycle): Reply {
    if l.execution.Idle? || IsTerminal(l.execution) then Declined
    else if IsLive(l.execution) then Accepted
    else Refused
  }

  function Finish(l: Lifecycle, state: Execution): Option<Lifecycle> {
    if (if state.Cancelled? then l.execution.Cancelling? else IsLive(l.execution))
    then Some(Lifecycle(state, false)) else None
  }

  function Fail(l: Lifecycle): Option<Lifecycle> {
    if IsTerminal(l.execution) then None else Some(Lifecycle(Failed, false))
  }

  // ----- the controller -----

  /** A tool or completion event carries the text its description yields, if any. */
  datatype AgentEvent =
    | RunStarted
    | RunSteered
    | TextDelta
    | TextFinal(text: string)
    | ToolEvent(milestone: Option<string>)
    | RunCompleted(milestone: Option<string>)
    | RunFailed(narration: string)
    | RunCancelled

  datatype Kind = Answer | Milestone | Failure

  /** `number` counts the milestones described so far, so that a spoken one can be told apart. */
  datatype Staged = Staged(text: string, number: nat)

  datatype Entry =
    | FannedOut(event: AgentEvent)
    | Spoke(kind: Kind, said: Staged, at: real, gated: bool)
    | Silenced(at: real)
    | CancelAccepted
    | Reported(state: Execution)

  datatype CancelCall = NotCalled | Outstanding | Settled

  /** The executor's side: whether a steering is awaited, its cancel and close calls, the session
      ends still waiting, and whether the event loop has ended. */
  datatype Calls = Calls(
    awaitingSteer: bool, cancelCall: CancelCall, cancelCalls: nat, closeCalls: nat, ending: nat, drained: bool)

  datatype State = State(
    life: Lifecycle, terminal: bool, reported: bool, pending: Option<Staged>, lastAudible: Option<real>,
    described: nat, calls: Calls, log: seq<Entry>)

  function Initial(): State {
    State(Lifecycle(Idle, false), false, false, None, None, 0, Calls(false, NotCalled, 0, 0, 0, false), [])
  }

  /** Which injected callbacks throw when this step reaches them: the fan-out, the narration of a
      flushed milestone, the description, the queue drop, the narration, the failure text, the
      first and second stop, and the terminal callback. */
  datatype Faults = Faults(
    fanOut: bool, flush: bool, describe: bool, drop: bool, speak: bool, narrate: bool,
    stop: bool, stopAgain: bool, report: bool)

  /** What a synchronous call leaves behind, and whether it threw. */
  datatype Outcome = Done(state: State) | Threw(state: State)

  function Log(s: State, e: Entry): State {
    s.(log := s.log + [e])
  }

  function Say(s: State, kind: Kind, said: Staged, at: real, gated: bool, throws: bool): Outcome {
    if throws then Threw(s) else Done(Log(s.(lastAudible := Some(at)), Spoke(kind, said, at, gated)))
  }

  function Deliver(s: State, kind: Kind, said: Staged, at: real, gated: bool, throws: bool): (r: Outcome)
    ensures r.state.calls == s.calls
  {
    if s.terminal then Done(s)
    else if s.life.speaking then Say(s, kind, said, at, gated, throws)
    else
      match StartSpeech(s.life)
      case None => Threw(s)
      case Some(l) => Say(s.(life := l), kind, said, at, gated, throws)
  }

  predicate Ripe(interval: real, s: State, at: real) {
    s.lastAudible.Some? ==> at - s.lastAudible.value >= interval
  }

  function FlushPendingMilestone(interval: real, s: State, at: real, throws: bool): (r: Outcome)
    ensures r.state.calls == s.calls
  {
    if s.pending.None? || !Ripe(interval, s, at) then Done(s)
    else Deliver(s.(pending := None), Milestone, s.pending.value, at, true, throws)
  }

  function SpeakMilestone(interval: real, s: State, text: string, at: real, throws: bool): (r: Outcome)
    ensures r.state.calls == s.calls
  {
    var said := Staged(text, s.described);
    var t := s.(described := s.described + 1);
    if Ripe(interval, t, at) then Deliver(t, Milestone, said, at, true, throws)
    else Done(t.(pending := Some(said)))
  }

  function ReportTerminal(s: State, state: Execution, throws: bool): (r: Outcome)
    ensures r.state.calls == s.calls
  {
    if s.reported then Done(s)
    else
      var t := Log(s.(reported := true, terminal := true, pending := None), Reported(state));
      if throws then Threw(t) else Done(t)
  }

  function FinishRun(s: State, state: Execution, throws: bool): (r: Outcome)
    ensures r.state.calls == s.calls
  {
    if s.terminal then Done(s)
    else
      var t := s.(pending := None);
      match Finish(t.life, state)
      case None => Threw(t)
      case Some(l) => ReportTerminal(t.(life := l), state, throws)
  }

  function FailRun(s: State, stopSpeech: bool, stopThrows: bool, throws: bool): (r: Outcome)
    ensures r.state.calls == s.calls
  {
    if s.terminal then Done(s)
    else if stopSpeech && stopThrows then Threw(s)
    else
      var t := s.(pending := None);
      match Fail(t.life)
      case None => Threw(t)
      case Some(l) => ReportTerminal(t.(life := l), Failed, throws)
  }

  function AcceptTool(interval: real, s: State, milestone: Option<string>, f: Faults, first: real,
                      second: real): (r: Outcome)
    ensures r.state.calls == s.calls
  {
    match FlushPendingMilestone(interval, s, first, f.flush)
    case Threw(t) => Threw(t)
    case Done(t) => RestOfTool(interval, t, milestone, f, second)
  }

  /** A tool event's own milestone, once the staged one has been looked at. */
  function RestOfTool(interval: real, s: State, milestone: Option<string>, f: Faults, at: real): (r: Outcome)
    ensures r.state.calls == s.calls
  {
    if f.describe then Threw(s)
    else if milestone.None? then Done(s)
    else SpeakMilestone(interval, s, milestone.value, at, f.speak)
  }

  function ThenComplete(narration: Outcome, throws: bool): (r: Outcome)
    ensures r.state.calls == narration.state.calls
  {
    match narration
    case Threw(t) => Threw(t)
    case Done(t) => FinishRun(t, Completed, throws)
  }

  /** The narration of a completion is not held back by the interval. */
  function NarrateAndFinish(s: State, said: Staged, f: Faults, at: real): (r: Outcome)
    ensures r.state.calls == s.calls
  {
    ThenComplete(Deliver(s, Milestone, said, at, false, f.speak), f.report)
  }

  /** One more milestone described, and nothing staged. */
  function Counted(s: State): State {
    s.(pending := None, described := s.described + 1)
  }

  function Conclude(s: State, milestone: Option<string>, f: Faults, at: real): (r: Outcome)
    ensures r.state.calls == s.calls
  {
    if f.describe then Threw(s)
    else if milestone.None? then FinishRun(s, Completed, f.report)
    else if f.drop then Threw(s)
    else NarrateAndFinish(Counted(s), Staged(milestone.value, s.described), f, at)
  }

  function AcceptCompletion(interval: real, s: State, milestone: Option<string>, f: Faults, first: real,
                            second: real): (r: Outcome)
    ensures r.state.calls == s.calls
  {
    match FlushPendingMilestone(interval, s, first, f.flush)
    case Threw(t) => Threw(t)
    case Done(t) => Conclude(t, milestone, f, second)
  }

  function ThenFail(narration: Outcome, throws: bool): (r: Outcome)
    ensures r.state.calls == narration.state.calls
  {
    match narration
    case Threw(t) => Threw(t)
    case Done(t) =>
      match Finish(t.life, Failed)
      case None => Threw(t)
      case Some(l) => ReportTerminal(t.(life := l), Failed, throws)
  }

  function AcceptFailure(s: State, narration: string, f: Faults, at: real): (r: Outcome)
    ensures r.state.calls == s.calls
  {
    if f.drop then Threw(s)
    else if f.narrate then Threw(s.(pending := None))
    else ThenFail(Deliver(s.(pending := None), Failure, Staged(narration, s.described), at, false, f.speak), f.report)
  }

  /** The switch of `accept`, after the fan-out. */
  function Dispatch(interval: real, s: State, e: AgentEvent, f: Faults, first: real, second: real): (r: Outcome)
    ensures r.state.calls == s.calls
  {
    match e
    case RunStarted =>
      (match StartExecution(s.life)
       case None => Threw(s)
       case Some(l) => Done(s.(life := l)))
    case TextFinal(text) =>
      if f.drop then Threw(s)
      else Deliver(s.(pending := None), Answer, Staged(text, s.described), second, false, f.speak)
    case ToolEvent(milestone) => AcceptTool(interval, s, milestone, f, first, second)
    case RunCompleted(milestone) => AcceptCompletion(interval, s, milestone, f, first, second)
    case RunFailed(narration) => AcceptFailure(s, narration, f, second)
    case RunCancelled => FinishRun(s, Cancelled, f.report)
    case RunSteered => Done(s)
    case TextDelta => Done(s)
  }

  /** `accept`: an event that races an accepted cancel can only end the run as cancelled. */
  function Accept(interval: real, s: State, e: AgentEvent, f: Faults, first: real, second: real): (r: Outcome)
    ensures r.state.calls == s.calls
  {
    if s.terminal then Done(s)
    else if s.life.execution.Cancelling? then
      if e.RunCancelled? then
        if f.fanOut then Threw(s) else FinishRun(Log(s, FannedOut(e)), Cancelled, f.report)
      else if e.RunCompleted? || e.RunFailed? then FinishRun(s, Cancelled, f.report)
      else Done(s)
    else if f.fanOut then Threw(s)
    else Dispatch(interval, Log(s, FannedOut(e)), e, f, first, second)
  }

  // ----- the steps -----

  datatype Event =
    | Consume(event: AgentEvent)
    | StreamEnds
    | StreamBreaks
    | StopSpeech
    | Steer
    | SteerSettles
    | Cancel
    | CancelSettles(rejected: bool)
    | EndSession
    | CleanUp
    | Timeout

  /** `first` and `second` are the readings of the clock a step makes, in order. */
  datatype Input = Input(event: Event, faults: Faults, first: real, second: real)

  function Drained(s: State): State {
    s.(calls := s.calls.(drained := true))
  }

  /** One turn of the consuming loop; a throw ends it through its handler. */
  function ConsumeOne(interval: real, s: State, e: AgentEvent, f: Faults, first: real, second: real): State {
    match Accept(interval, s, e, f, first, second)
    case Done(t) => if t.terminal then Drained(t) else t
    case Threw(t) => Drained(FailRun(t, true, f.stop, f.report).state)
  }

  /** The loop left without a terminal event; the handler tries once more when that throws. */
  function EndStream(s: State, f: Faults): State {
    match FailRun(s, true, f.stop, f.report)
    case Done(t) => Drained(t)
    case Threw(t) => Drained(FailRun(t, true, f.stopAgain, f.report).state)
  }

  function StopMouth(s: State, f: Faults, at: real): (r: State)
    ensures r.calls.drained == s.calls.drained
  {
    if !s.life.speaking then s
    else
      var t := s.(life := s.life.(speaking := false));
      if f.stop then t else Log(t.(pending := None, lastAudible := Some(at)), Silenced(at))
  }

  /** The first half of `steer`; when the queue drop throws, nothing will finish the steering. */
  function BeginSteer(s: State, f: Faults): (r: State)
    ensures r.calls.drained == s.calls.drained
  {
    if s.terminal then s
    else
      match BeginSteering(s.life)
      case None => s
      case Some(l) =>
        if f.drop then s.(life := l)
        else s.(life := l, pending := None, calls := s.calls.(awaitingSteer := true))
  }

  function FinishSteer(s: State): (r: State)
    ensures r.calls.drained == s.calls.drained
  {
    if !s.calls.awaitingSteer then s
    else
      s.(calls := s.calls.(awaitingSteer := false),
         life := if s.life.execution.Steering? then s.life.(execution := Running) else s.life)
  }

  function Closed(c: Calls): Calls {
    if c.closeCalls == 0 then c.(closeCalls := 1) else c
  }

  function CancelCalled(c: Calls): Calls {
    if c.cancelCall.NotCalled? then c.(cancelCall := Outstanding, cancelCalls := c.cancelCalls + 1) else c
  }

  function CloseRun(s: State): (r: State)
    ensures r.calls.drained == s.calls.drained
  {
    s.(calls := Closed(s.calls))
  }

  function CancelRun(s: State): (r: State)
    ensures r.calls.drained == s.calls.drained
  {
    s.(calls := CancelCalled(s.calls))
  }

  /** An accepted cancel takes over both scopes and silences the mouth. */
  function TakeCancel(s: State, f: Faults, at: real): (r: Outcome)
    ensures r.state.calls == s.calls
  {
    var t := Log(s.(life := Lifecycle(Cancelling, false)), CancelAccepted);
    if f.stop then Threw(t) else Done(Log(t.(pending := None, lastAudible := Some(at)), Silenced(at)))
  }

  function CancelStep(s: State, f: Faults, at: real): (r: State)
    ensures r.calls.drained == s.calls.drained
  {
    if s.terminal || s.life.execution.Cancelling? || !CancelReply(s.life).Accepted? then s
    else
      match TakeCancel(s, f, at)
      case Threw(t) => t
      case Done(t) => CancelRun(t)
  }

  function FailAndClose(s: State, f: Faults): (r: State)
    ensures r.calls.drained == s.calls.drained
  {
    match FailRun(s, false, false, f.report)
    case Threw(t) => t
    case Done(t) => CloseRun(t)
  }

  function SettleCancel(s: State, rejected: bool, f: Faults): (r: State)
    ensures r.calls.drained == s.calls.drained
  {
    if !s.calls.cancelCall.Outstanding? then s
    else
      var t := s.(calls := s.calls.(cancelCall := Settled));
      if rejected then FailAndClose(t, f) else t
  }

  /** `endSession` up to its first await. */
  function BeginEnd(s: State): (r: State)
    ensures r.calls.drained == s.calls.drained
  {
    var t := s.(calls := s.calls.(ending := s.calls.ending + 1));
    if t.terminal then CloseRun(t) else CancelRun(t)
  }

  function EndSessionStep(s: State, f: Faults, at: real): (r: State)
    ensures r.calls.drained == s.calls.drained
  {
    if !s.terminal && !s.life.execution.Cancelling? && CancelReply(s.life).Accepted? then
      match TakeCancel(s, f, at)
      case Threw(t) => t
      case Done(t) => BeginEnd(t)
    else BeginEnd(s)
  }

  /** The drain deadline passed with the cleanup unfinished. */
  function TimeOut(s: State, f: Faults): (r: State)
    ensures r.calls.drained == s.calls.drained
  {
    if s.calls.ending == 0 then s
    else FailRun(CloseRun(s.(calls := s.calls.(ending := s.calls.ending - 1))), false, false, f.report).state
  }

  function Step(interval: real, s: State, x: Input): State {
    match x.event
    case Consume(e) => if s.calls.drained then s else ConsumeOne(interval, s, e, x.faults, x.first, x.second)
    case StreamEnds => if s.calls.drained then s else EndStream(s, x.faults)
    case StreamBreaks => if s.calls.drained then s else Drained(FailRun(s, true, x.faults.stop, x.faults.report).state)
    case StopSpeech => StopMouth(s, x.faults, x.first)
    case Steer => BeginSteer(s, x.faults)
    case SteerSettles => FinishSteer(s)
    case Cancel => CancelStep(s, x.faults, x.first)
    case CancelSettles(rejected) => SettleCancel(s, rejected, x.faults)
    case EndSession => EndSessionStep(s, x.faults, x.first)
    case CleanUp => if s.calls.ending > 0 && s.calls.cancelCall.Settled? then CloseRun(s) else s
    case Timeout => TimeOut(s, x.faults)
  }

  function Run(interval: real, inputs: seq<Input>): State {
    if inputs == [] then Initial() else Step(interval, Run(interval, inputs[..|inputs| - 1]), inputs[|inputs| - 1])
  }

  // ----- what the log may hold -----

  /** What has been seen in a log so far. */
  datatype Seen = Seen(started: bool, cancelled: bool, completed: bool, reported: bool)

  function See(before: Seen, e: Entry): Seen {
    Seen(before.started || e == FannedOut(RunStarted),
         before.cancelled || e.CancelAccepted?,
         before.completed || (e.FannedOut? && e.event.RunCompleted?),
         before.reported || e.Reported?)
  }

  function Read(log: seq<Entry>): Seen {
    if log == [] then Seen(false, false, false, false) else See(Read(log[..|log| - 1]), log[|log| - 1])
  }

  /** What an entry needs of those before it: nothing follows the report, an accepted cancel
      leaves only the cancellation to fan out and nothing to say, and an outcome has its cause. */
  predicate MayFollow(before: Seen, e: Entry) {
    && !before.reported
    && match e
       case FannedOut(event) => before.cancelled ==> event.RunCancelled?
       case Spoke(_, _, _, _) => before.started && !before.cancelled
       case Silenced(_) => before.started
       case CancelAccepted => before.started && !before.cancelled
       case Reported(state) =>
         && IsTerminal(state)
         && (state.Cancelled? ==> before.cancelled)
         && (state.Completed? ==> before.completed && !before.cancelled)
  }

  predicate Orderly(log: seq<Entry>) {
    log != [] ==> Orderly(log[..|log| - 1]) && MayFollow(Read(log[..|log| - 1]), log[|log| - 1])
  }

  lemma Push(log: seq<Entry>, e: Entry)
    ensures Read(log + [e]) == See(Read(log), e)
    ensures Orderly(log + [e]) <==> Orderly(log) && MayFollow(Read(log), e)
  {
    assert (log + [e])[..|log|] == log;
  }

  predicate CallsOk(c: Calls) {
    c.cancelCalls <= 1 && c.closeCalls <= 1 && (c.cancelCall.NotCalled? <==> c.cancelCalls == 0)
  }

  predicate LifeOk(l: Lifecycle, seen: Seen) {
    && (l.speaking ==> IsLive(l.execution))
    && (l.execution.Idle? || seen.started || l.execution.Failed?)
    && (l.execution.Cancelling? ==> seen.cancelled)
    && (seen.cancelled ==> l.execution in {Cancelling, Cancelled, Failed})
  }

  ghost predicate Inv(s: State) {
    && s.terminal == s.reported == IsTerminal(s.life.execution) == Read(s.log).reported
    && (s.terminal ==> s.pending.None?)
    && LifeOk(s.life, Read(s.log))
    && Orderly(s.log)
    && CallsOk(s.calls)
  }

  lemma RestageKeeps(s: State, pending: Option<Staged>, described: nat)
    requires Inv(s) && (s.terminal ==> pending.None?)
    ensures Inv(s.(pending := pending, described := described))
  {
  }

  lemma SayKeeps(s: State, kind: Kind, said: Staged, at: real, gated: bool, throws: bool)
    requires Inv(s) && IsLive(s.life.execution)
    ensures var r := Say(s, kind, said, at, gated, throws).state; Inv(r) && r.life == s.life
  {
    Push(s.log, Spoke(kind, said, at, gated));
  }

  lemma DeliverKeeps(s: State, kind: Kind, said: Staged, at: real, gated: bool, throws: bool)
    requires Inv(s)
    ensures var r := Deliver(s, kind, said, at, gated, throws).state;
      Inv(r) && r.life.execution == s.life.execution && (Read(s.log).completed ==> Read(r.log).completed)
  {
    if !s.terminal && (s.life.speaking || StartSpeech(s.life).Some?) {
      var t := if s.life.speaking then s else s.(life := StartSpeech(s.life).value);
      SayKeeps(t, kind, said, at, gated, throws);
      Push(t.log, Spoke(kind, said, at, gated));
    }
  }

  /** The end of a run: a terminal lifecycle state and its report, in one step. */
  lemma ReportKeeps(s: State, l: Lifecycle, throws: bool)
    requires Inv(s) && !s.terminal && IsTerminal(l.execution) && !l.speaking
    requires l.execution.Cancelled? ==> s.life.execution.Cancelling?
    requires l.execution.Completed? ==> IsLive(s.life.execution) && Read(s.log).completed
    ensures var r := ReportTerminal(s.(life := l), l.execution, throws).state;
      Inv(r) && r.terminal
  {
    Push(s.log, Reported(l.execution));
  }

  lemma FinishKeeps(s: State, state: Execution, throws: bool)
    requires Inv(s) && state in {Completed, Cancelled}
    requires state.Completed? ==> Read(s.log).completed
    ensures Inv(FinishRun(s, state, throws).state)
  {
    if !s.terminal && Finish(s.life, state).Some? {
      RestageKeeps(s, None, s.described);
      ReportKeeps(s.(pending := None), Finish(s.life, state).value, throws);
    }
  }

  /** Failing a run always reaches its report, unless the sink's own stop throws: the lifecycle
      never refuses, because it is terminal only when the controller is. */
  lemma FailKeeps(s: State, stopSpeech: bool, stopThrows: bool, throws: bool)
    requires Inv(s)
    ensures var r := FailRun(s, stopSpeech, stopThrows, throws).state;
      Inv(r) && (r.terminal <==> s.terminal || !(stopSpeech && stopThrows))
  {
    if !s.terminal && !(stopSpeech && stopThrows) {
      RestageKeeps(s, None, s.described);
      ReportKeeps(s.(pending := None), Lifecycle(Failed, false), throws);
    }
  }

  lemma FlushKeeps(interval: real, s: State, at: real, throws: bool)
    requires Inv(s)
    ensures var r := FlushPendingMilestone(interval, s, at, throws).state;
      Inv(r) && r.life.execution == s.life.execution && (Read(s.log).completed ==> Read(r.log).completed)
  {
    if s.pending.Some? {
      DeliverKeeps(s.(pending := None), Milestone, s.pending.value, at, true, throws);
    }
  }

  lemma SpeakKeeps(interval: real, s: State, text: string, at: real, throws: bool, r: Outcome)
    requires Inv(s) && !s.terminal && r == SpeakMilestone(interval, s, text, at, throws)
    ensures Inv(r.state)
  {
    var said := Staged(text, s.described);
    RestageKeeps(s, s.pending, s.described + 1);
    RestageKeeps(s, Some(said), s.described + 1);
    DeliverKeeps(s.(described := s.described + 1), Milestone, said, at, true, throws);
  }

  lemma ToolKeeps(interval: real, s: State, milestone: Option<string>, f: Faults, first: real, second: real)
    requires Inv(s) && !s.terminal
    ensures Inv(AcceptTool(interval, s, milestone, f, first, second).state)
  {
    var flushed := FlushPendingMilestone(interval, s, first, f.flush);
    FlushKeeps(interval, s, first, f.flush);
    if milestone.Some? {
      SpeakKeeps(interval, flushed.state, milestone.value, second, f.speak,
        SpeakMilestone(interval, flushed.state, milestone.value, second, f.speak));
    }
  }

  lemma ThenCompleteKeeps(narration: Outcome, throws: bool)
    requires Inv(narration.state) && Read(narration.state.log).completed
    ensures Inv(ThenComplete(narration, throws).state)
  {
    FinishKeeps(narration.state, Completed, throws);
  }

  lemma NarrateAndFinishKeeps(s: State, said: Staged, f: Faults, at: real)
    requires Inv(s) && Read(s.log).completed
    ensures Inv(NarrateAndFinish(s, said, f, at).state)
  {
    DeliverKeeps(s, Milestone, said, at, false, f.speak);
    ThenCompleteKeeps(Deliver(s, Milestone, said, at, false, f.speak), f.report);
  }

  lemma ConcludeKeeps(s: State, milestone: Option<string>, f: Faults, at: real)
    requires Inv(s) && Read(s.log).completed
    ensures Inv(Conclude(s, milestone, f, at).state)
  {
    if milestone.None? {
      FinishKeeps(s, Completed, f.report);
    } else {
      RestageKeeps(s, None, s.described + 1);
      NarrateAndFinishKeeps(Counted(s), Staged(milestone.value, s.described), f, at);
    }
  }

  lemma CompletionKeeps(interval: real, s: State, milestone: Option<string>, f: Faults, first: real, second: real)
    requires Inv(s) && Read(s.log).completed
    ensures Inv(AcceptCompletion(interval, s, milestone, f, first, second).state)
  {
    var flushed := FlushPendingMilestone(interval, s, first, f.flush);
    FlushKeeps(interval, s, first, f.flush);
    ConcludeKeeps(flushed.state, milestone, f, second);
  }

  lemma ThenFailKeeps(narration: Outcome, throws: bool)
    requires Inv(narration.state)
    ensures Inv(ThenFail(narration, throws).state)
  {
    if !narration.state.terminal && Finish(narration.state.life, Failed).Some? {
      ReportKeeps(narration.state, Lifecycle(Failed, false), throws);
    }
  }

  lemma FailureKeeps(s: State, narration: string, f: Faults, at: real)
    requires Inv(s) && !s.terminal
    ensures Inv(AcceptFailure(s, narration, f, at).state)
  {
    var t := s.(pending := None);
    RestageKeeps(s, None, s.described);
    DeliverKeeps(t, Failure, Staged(narration, s.described), at, false, f.speak);
    ThenFailKeeps(Deliver(t, Failure, Staged(narration, s.described), at, false, f.speak), f.report);
  }

  lemma DispatchKeeps(interval: real, s: State, e: AgentEvent, f: Faults, first: real, second: real)
    requires Inv(s) && !s.terminal && !s.life.execution.Cancelling?
    requires e.RunStarted? ==> Read(s.log).started
    requires e.RunCompleted? ==> Read(s.log).completed
    ensures Inv(Dispatch(interval, s, e, f, first, second).state)
  {
    match e
    case TextFinal(text) =>
      DeliverKeeps(s.(pending := None), Answer, Staged(text, s.described), second, false, f.speak);
    case ToolEvent(milestone) => ToolKeeps(interval, s, milestone, f, first, second);
    case RunCompleted(milestone) => CompletionKeeps(interval, s, milestone, f, first, second);
    case RunFailed(narration) => FailureKeeps(s, narration, f, second);
    case RunCancelled => FinishKeeps(s, Cancelled, f.report);
    case RunStarted =>
    case RunSteered =>
    case TextDelta =>
  }

  lemma AcceptKeeps(interval: real, s: State, e: AgentEvent, f: Faults, first: real, second: real)
    requires Inv(s)
    ensures Inv(Accept(interval, s, e, f, first, second).state)
  {
    if !s.terminal {
      if s.life.execution.Cancelling? {
        AcceptCancelledKeeps(interval, s, e, f, first, second);
      } else {
        FanOutKeeps(s, e);
        DispatchKeeps(interval, Log(s, FannedOut(e)), e, f, first, second);
      }
    }
  }

  lemma FanOutKeeps(s: State, e: AgentEvent)
    requires Inv(s) && !s.terminal && (s.life.execution.Cancelling? ==> e.RunCancelled?)
    ensures var t := Log(s, FannedOut(e));
      && Inv(t) && !t.terminal
      && (e.RunStarted? ==> Read(t.log).started) && (e.RunCompleted? ==> Read(t.log).completed)
  {
    Push(s.log, FannedOut(e));
  }

  lemma AcceptCancelledKeeps(interval: real, s: State, e: AgentEvent, f: Faults, first: real, second: real)
    requires Inv(s) && !s.terminal && s.life.execution.Cancelling?
    ensures Inv(Accept(interval, s, e, f, first, second).state)
  {
    if e.RunCancelled? {
      FanOutKeeps(s, e);
      FinishKeeps(Log(s, FannedOut(e)), Cancelled, f.report);
    } else {
      FinishKeeps(s, Cancelled, f.report);
    }
  }

  lemma TakeCancelKeeps(s: State, f: Faults, at: real)
    requires Inv(s) && IsLive(s.life.execution)
    ensures Inv(TakeCancel(s, f, at).state)
  {
    Push(s.log, CancelAccepted);
    Push(s.log + [CancelAccepted], Silenced(at));
  }

  lemma StreamKeeps(interval: real, s: State, x: Input)
    requires Inv(s) && (x.event.Consume? || x.event.StreamEnds? || x.event.StreamBreaks?)
    ensures Inv(Step(interval, s, x))
  {
    var f := x.faults;
    if x.event.Consume? {
      AcceptKeeps(interval, s, x.event.event, f, x.first, x.second);
      FailKeeps(Accept(interval, s, x.event.event, f, x.first, x.second).state, true, f.stop, f.report);
    } else {
      FailKeeps(s, true, f.stop, f.report);
      FailKeeps(FailRun(s, true, f.stop, f.report).state, true, f.stopAgain, f.report);
    }
  }

  lemma BeginEndKeeps(s: State)
    requires Inv(s)
    ensures Inv(CancelRun(s)) && Inv(CloseRun(s)) && Inv(BeginEnd(s))
  {
  }

  lemma CancelKeeps(s: State, f: Faults, at: real)
    requires Inv(s)
    ensures Inv(CancelStep(s, f, at))
  {
    if IsLive(s.life.execution) {
      TakeCancelKeeps(s, f, at);
      BeginEndKeeps(TakeCancel(s, f, at).state);
    }
  }

  lemma EndSessionKeeps(s: State, f: Faults, at: real)
    requires Inv(s)
    ensures Inv(EndSessionStep(s, f, at))
  {
    if IsLive(s.life.execution) {
      TakeCancelKeeps(s, f, at);
      BeginEndKeeps(TakeCancel(s, f, at).state);
    } else {
      BeginEndKeeps(s);
    }
  }

  lemma SettleKeeps(s: State, rejected: bool, f: Faults)
    requires Inv(s)
    ensures Inv(SettleCancel(s, rejected, f))
  {
    if s.calls.cancelCall.Outstanding? {
      FailKeeps(s.(calls := s.calls.(cancelCall := Settled)), false, false, f.report);
    }
  }

  lemma TimeOutKeeps(s: State, f: Faults)
    requires Inv(s)
    ensures Inv(TimeOut(s, f))
    ensures s.calls.ending > 0 ==> TimeOut(s, f).terminal
  {
    if s.calls.ending > 0 {
      FailKeeps(CloseRun(s.(calls := s.calls.(ending := s.calls.ending - 1))), false, false, f.report);
    }
  }

  lemma StopMouthKeeps(s: State, f: Faults, at: real)
    requires Inv(s)
    ensures Inv(StopMouth(s, f, at))
  {
    Push(s.log, Silenced(at));
  }

  lemma SteeringKeeps(s: State, f: Faults)
    requires Inv(s)
    ensures Inv(BeginSteer(s, f)) && Inv(FinishSteer(s))
  {
  }

  /** Every step of every interleaving keeps the invariant. */
  lemma StepKeeps(interval: real, s: State, x: Input)
    requires Inv(s)
    ensures Inv(Step(interval, s, x))
  {
    match x.event
    case Consume(_) => StreamKeeps(interval, s, x);
    case StreamEnds => StreamKeeps(interval, s, x);
    case StreamBreaks => StreamKeeps(interval, s, x);
    case StopSpeech => StopMouthKeeps(s, x.faults, x.first);
    case Steer => SteeringKeeps(s, x.faults);
    case SteerSettles => SteeringKeeps(s, x.faults);
    case Cancel => CancelKeeps(s, x.faults, x.first);
    case CancelSettles(rejected) => SettleKeeps(s, rejected, x.faults);
    case EndSession => EndSessionKeeps(s, x.faults, x.first);
    case CleanUp =>
    case Timeout => TimeOutKeeps(s, x.faults);
  }

  lemma {:induction false} RunKeeps(interval: real, inputs: seq<Input>)
    ensures Inv(Run(interval, inputs))
    decreases |inputs|
  {
    if inputs != [] {
      RunKeeps(interval, inputs[..|inputs| - 1]);
      StepKeeps(interval, Run(interval, inputs[..|inputs| - 1]), inputs[|inputs| - 1]);
    }
  }

  // ----- whole runs -----

  /** In a log in order, what stands at `j` is compatible with what was seen up to any `i`. */
  lemma {:induction false} EntriesMayFollow(log: seq<Entry>, j: nat)
    requires Orderly(log) && j < |log|
    ensures MayFollow(Read(log[..j]), log[j])
    decreases |log|
  {
    var before := log[..|log| - 1];
    if j < |before| {
      EntriesMayFollow(before, j);
      assert before[..j] == log[..j];
    }
  }

  lemma {:induction false} ReadsRemember(log: seq<Entry>, i: nat)
    requires i < |log|
    ensures log[i].Reported? ==> Read(log).reported
    ensures log[i].CancelAccepted? ==> Read(log).cancelled
    decreases |log|
  {
    if i < |log| - 1 { ReadsRemember(log[..|log| - 1], i); }
  }

  lemma {:induction false} ReadsHaveCauses(log: seq<Entry>)
    ensures Read(log).started ==> FannedOut(RunStarted) in log
    ensures Read(log).cancelled ==> CancelAccepted in log
    ensures Read(log).completed ==> exists m :: FannedOut(RunCompleted(m)) in log
    ensures Read(log).reported ==> exists state :: Reported(state) in log
    decreases |log|
  {
    if log != [] {
      var before, e := log[..|log| - 1], log[|log| - 1];
      ReadsHaveCauses(before);
      if e.Reported? { assert Reported(e.state) in log; }
      if e.FannedOut? && e.event.RunCompleted? { assert FannedOut(RunCompleted(e.event.milestone)) in log; }
      assert forall x :: x in before ==> x in log;
    }
  }

  /** Whatever interleaves, the outcome is reported at most once and nothing is fanned out,
      spoken or silenced after it. */
  lemma ReportIsLast(interval: real, inputs: seq<Input>, i: nat)
    requires i < |Run(interval, inputs).log| && Run(interval, inputs).log[i].Reported?
    ensures i == |Run(interval, inputs).log| - 1 && Run(interval, inputs).terminal
  {
    var s := Run(interval, inputs);
    RunKeeps(interval, inputs);
    ReadsRemember(s.log, i);
    if i < |s.log| - 1 {
      EntriesMayFollow(s.log, i + 1);
      ReadsRemember(s.log[..i + 1], i);
      assert false;
    }
  }

  /** After an accepted cancel nothing more is spoken, only the cancellation itself is fanned out,
      and the run never reports that it completed. */
  lemma CancelWins(interval: real, inputs: seq<Input>, i: nat, j: nat)
    requires i < j < |Run(interval, inputs).log| && Run(interval, inputs).log[i].CancelAccepted?
    ensures Run(interval, inputs).log[j] in {FannedOut(RunCancelled), Reported(Cancelled), Reported(Failed)}
         || Run(interval, inputs).log[j].Silenced?
  {
    RunKeeps(interval, inputs);
    AfterCancel(Run(interval, inputs).log, i, j);
  }

  lemma AfterCancel(log: seq<Entry>, i: nat, j: nat)
    requires Orderly(log) && i < j < |log| && log[i].CancelAccepted?
    ensures log[j] in {FannedOut(RunCancelled), Reported(Cancelled), Reported(Failed)} || log[j].Silenced?
  {
    EntriesMayFollow(log, j);
    ReadsRemember(log[..j], i);
  }

  /** A run reported as cancelled was cancelled by the user before, one reported as completed has
      fanned out the executor's completion and was never cancelled, and nothing is spoken before
      the run has started. */
  lemma OutcomeIsHonest(interval: real, inputs: seq<Input>, j: nat)
    requires j < |Run(interval, inputs).log|
    ensures Honest(Run(interval, inputs).log, j)
  {
    RunKeeps(interval, inputs);
    OrderlyIsHonest(Run(interval, inputs).log, j);
  }

  ghost predicate Honest(log: seq<Entry>, j: nat)
    requires j < |log|
  {
    && (log[j] == Reported(Cancelled) ==> CancelAccepted in log[..j])
    && (log[j] == Reported(Completed) ==> CancelAccepted !in log && exists m :: FannedOut(RunCompleted(m)) in log[..j])
    && (log[j].Spoke? ==> FannedOut(RunStarted) in log[..j])
  }

  lemma OrderlyIsHonest(log: seq<Entry>, j: nat)
    requires Orderly(log) && j < |log|
    ensures Honest(log, j)
  {
    EntriesMayFollow(log, j);
    ReadsHaveCauses(log[..j]);
    if log[j] == Reported(Completed) && CancelAccepted in log {
      var i :| 0 <= i < |log| && log[i] == CancelAccepted;
      if i < j {
        ReadsRemember(log[..j], i);
      } else {
        EntriesMayFollow(log, i);
        ReadsRemember(log[..i], j);
      }
      assert false;
    }
  }

  /** Once terminal, no event, control or deadline changes what the run is or shows. */
  lemma TerminalIsFrozen(interval: real, inputs: seq<Input>, x: Input)
    requires Run(interval, inputs).terminal
    ensures var s, t := Run(interval, inputs), Step(interval, Run(interval, inputs), x);
      t.log == s.log && t.life == s.life && t.pending == s.pending && t.lastAudible == s.lastAudible
  {
    RunKeeps(interval, inputs);
    FrozenStep(interval, Run(interval, inputs), x);
  }

  lemma FrozenStep(interval: real, s: State, x: Input)
    requires Inv(s) && s.terminal
    ensures var t := Step(interval, s, x);
      t.log == s.log && t.life == s.life && t.pending == s.pending && t.lastAudible == s.lastAudible
  {
    assert !s.life.speaking && IsTerminal(s.life.execution);
  }

  // ----- every run gets its report -----

  /** What loses the report: the step ends the event loop without a terminal event, or because
      handling its event threw, and the speech sink fails whenever it is told to stop. */
  predicate LosesReport(interval: real, s: State, x: Input) {
    match x.event
    case Consume(e) =>
      var r := Accept(interval, s, e, x.faults, x.first, x.second);
      r.Threw? && !r.state.terminal && x.faults.stop
    case StreamEnds => x.faults.stop && x.faults.stopAgain
    case StreamBreaks => x.faults.stop
    case _ => false
  }

  lemma ConsumedEndReportsIff(interval: real, s: State, x: Input)
    requires Inv(s) && !s.calls.drained && x.event.Consume?
    ensures var t := Step(interval, s, x); t.calls.drained && !t.terminal <==> LosesReport(interval, s, x)
  {
    var f := x.faults;
    var r := Accept(interval, s, x.event.event, f, x.first, x.second);
    AcceptKeeps(interval, s, x.event.event, f, x.first, x.second);
    FailKeeps(r.state, true, f.stop, f.report);
  }

  /** Whatever ends the event loop of an unreported run, its outcome is reported unless the sink's
      stop throws; exactly then the run stays drained and unreported. */
  lemma EndOfLoopReportsIff(interval: real, s: State, x: Input)
    requires Inv(s) && !s.calls.drained && !s.terminal
    requires x.event.Consume? || x.event.StreamEnds? || x.event.StreamBreaks?
    ensures var t := Step(interval, s, x); t.calls.drained && !t.terminal <==> LosesReport(interval, s, x)
  {
    var f := x.faults;
    if x.event.Consume? {
      ConsumedEndReportsIff(interval, s, x);
    } else {
      FailKeeps(s, true, f.stop, f.report);
      FailKeeps(FailRun(s, true, f.stop, f.report).state, true, f.stopAgain, f.report);
    }
  }

  lemma ControlsDoNotDrain(interval: real, s: State, x: Input)
    requires !(x.event.Consume? || x.event.StreamEnds? || x.event.StreamBreaks?)
    ensures Step(interval, s, x).calls.drained == s.calls.drained
  {
  }

  lemma LoopEndReports(interval: real, s: State, x: Input)
    requires Inv(s) && (s.calls.drained ==> s.terminal) && !LosesReport(interval, s, x)
    ensures Step(interval, s, x).calls.drained ==> Step(interval, s, x).terminal
  {
    if s.terminal {
      FrozenStep(interval, s, x);
      StepKeeps(interval, s, x);
    } else if x.event.Consume? || x.event.StreamEnds? || x.event.StreamBreaks? {
      EndOfLoopReportsIff(interval, s, x);
    } else {
      ControlsDoNotDrain(interval, s, x);
    }
  }

  ghost predicate NeverLosesReport(interval: real, inputs: seq<Input>) {
    inputs != [] ==>
      var before := inputs[..|inputs| - 1];
      NeverLosesReport(interval, before) && !LosesReport(interval, Run(interval, before), inputs[|inputs| - 1])
  }

  /** When no step loses the report, a drained run has reported its outcome: with `ReportIsLast`,
      exactly once, whatever the executor, the callbacks and the callers do. */
  lemma {:induction false} DrainedRunsReported(interval: real, inputs: seq<Input>)
    requires NeverLosesReport(interval, inputs)
    ensures Run(interval, inputs).calls.drained ==> Run(interval, inputs).terminal
    ensures Run(interval, inputs).calls.drained ==> exists state :: Reported(state) in Run(interval, inputs).log
    decreases |inputs|
  {
    if inputs != [] {
      var n := |inputs| - 1;
      var before := inputs[..n];
      DrainedRunsReported(interval, before);
      RunKeeps(interval, before);
      LoopEndReports(interval, Run(interval, before), inputs[n]);
    }
    RunKeeps(interval, inputs);
    ReadsHaveCauses(Run(interval, inputs).log);
  }

  /** The deadline of `endSession` always finds or makes the run terminal, and cancel and close are
      called at most once however often they are asked for. */
  lemma ShutdownIsBounded(interval: real, inputs: seq<Input>, x: Input)
    requires x.event.Timeout? && Run(interval, inputs).calls.ending > 0
    ensures var t := Step(interval, Run(interval, inputs), x);
      t.terminal && t.calls.cancelCalls <= 1 && t.calls.closeCalls == 1
  {
    RunKeeps(interval, inputs);
    TimeOutCloses(Run(interval, inputs), x.faults);
  }

  lemma TimeOutCloses(s: State, f: Faults)
    requires Inv(s) && s.calls.ending > 0
    ensures var t := TimeOut(s, f); t.terminal && t.calls.cancelCalls <= 1 && t.calls.closeCalls == 1
  {
    TimeOutKeeps(s, f);
  }

  const NO_FAULTS := Faults(false, false, false, false, false, false, false, false, false)

  lemma RunStep(interval: real, inputs: seq<Input>, x: Input)
    ensures Run(interval, inputs + [x]) == Step(interval, Run(interval, inputs), x)
  {
    assert (inputs + [x])[..|inputs|] == inputs;
  }
}
