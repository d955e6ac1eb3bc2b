/** What a hang-up silences (apps/realtime-gateway/src/agent-run-controller.ts:171-194): exactly the
    runs that have started, have ended, or whose event stream has. */
module AgentHangUp {
  import opened Prelude
  import opened AgentRuns

  function Continue(interval: real, s: State, inputs: seq<Input>): State {
    if inputs == [] then s
    else Step(interval, Continue(interval, s, inputs[..|inputs| - 1]), inputs[|inputs| - 1])
  }

  lemma ContinueMore(interval: real, s: State, inputs: seq<Input>, x: Input)
    ensures Continue(interval, s, inputs + [x]) == Step(interval, Continue(interval, s, inputs), x)
  {
    assert (inputs + [x])[..|inputs|] == inputs;
  }

  /** How often the run has spoken. */
  function Speeches(log: seq<Entry>): nat {
    if log == [] then 0 else Speeches(log[..|log| - 1]) + if log[|log| - 1].Spoke? then 1 else 0
  }

  /** Something may still be heard of it. */
  ghost predicate MaySpeak(interval: real, s: State) {
    exists inputs :: Speeches(Continue(interval, s, inputs).log) > Speeches(s.log)
  }

  lemma Push(log: seq<Entry>, e: Entry)
    ensures Speeches(log + [e]) == Speeches(log) + if e.Spoke? then 1 else 0
  {
    assert (log + [e])[..|log|] == log;
  }

  // ----- runs that speak no more -----

  lemma ReportIsMute(s: State, state: Execution, throws: bool)
    ensures Speeches(ReportTerminal(s, state, throws).state.log) == Speeches(s.log)
  {
    Push(s.log, Reported(state));
  }

  lemma FinishIsMute(s: State, state: Execution, throws: bool)
    ensures Speeches(FinishRun(s, state, throws).state.log) == Speeches(s.log)
  {
    if Finish(s.life, state).Some? {
      ReportIsMute(s.(pending := None, life := Finish(s.life, state).value), state, throws);
    }
  }

  lemma FailIsMute(s: State, stopSpeech: bool, stopThrows: bool, throws: bool)
    ensures Speeches(FailRun(s, stopSpeech, stopThrows, throws).state.log) == Speeches(s.log)
  {
    if Fail(s.life).Some? {
      ReportIsMute(s.(pending := None, life := Fail(s.life).value), Failed, throws);
    }
  }

  lemma TakeCancelIsMute(s: State, f: Faults, at: real)
    ensures Speeches(TakeCancel(s, f, at).state.log) == Speeches(s.log)
  {
    Push(s.log, CancelAccepted);
    Push(s.log + [CancelAccepted], Silenced(at));
  }

  lemma SettlingIsMute(s: State, rejected: bool, f: Faults)
    ensures Speeches(SettleCancel(s, rejected, f).log) == Speeches(s.log)
  {
    FailIsMute(s.(calls := s.calls.(cancelCall := Settled)), false, false, f.report);
  }

  lemma TimingOutIsMute(s: State, f: Faults)
    ensures Speeches(TimeOut(s, f).log) == Speeches(s.log)
  {
    if s.calls.ending > 0 {
      FailIsMute(CloseRun(s.(calls := s.calls.(ending := s.calls.ending - 1))), false, false, f.report);
    }
  }

  lemma CancellingIsMute(s: State, f: Faults, at: real)
    ensures Speeches(CancelStep(s, f, at).log) == Speeches(s.log)
    ensures Speeches(EndSessionStep(s, f, at).log) == Speeches(s.log)
  {
    TakeCancelIsMute(s, f, at);
  }

  predicate IsStream(e: Event) {
    e.Consume? || e.StreamEnds? || e.StreamBreaks?
  }

  /** Only the event stream speaks. */
  lemma ControlsAreMute(interval: real, s: State, x: Input)
    requires !IsStream(x.event)
    ensures Speeches(Step(interval, s, x).log) == Speeches(s.log)
  {
    match x.event
    case StopSpeech => Push(s.log, Silenced(x.first));
    case Cancel => CancellingIsMute(s, x.faults, x.first);
    case EndSession => CancellingIsMute(s, x.faults, x.first);
    case CancelSettles(rejected) => SettlingIsMute(s, rejected, x.faults);
    case Timeout => TimingOutIsMute(s, x.faults);
    case Steer =>
    case SteerSettles =>
    case CleanUp =>
  }

  lemma EndsAreMute(interval: real, s: State, x: Input)
    requires x.event.StreamEnds? || x.event.StreamBreaks?
    ensures Speeches(Step(interval, s, x).log) == Speeches(s.log)
  {
    var f := x.faults;
    FailIsMute(s, true, f.stop, f.report);
    FailIsMute(FailRun(s, true, f.stop, f.report).state, true, f.stopAgain, f.report);
  }

  /** While a cancel is under way the stream's events are not narrated. */
  lemma CancelledEventsAreMute(interval: real, s: State, e: AgentEvent, f: Faults, first: real, second: real)
    requires s.life.execution.Cancelling?
    ensures Speeches(Accept(interval, s, e, f, first, second).state.log) == Speeches(s.log)
  {
    if e.RunCancelled? {
      Push(s.log, FannedOut(e));
      FinishIsMute(Log(s, FannedOut(e)), Cancelled, f.report);
    } else {
      FinishIsMute(s, Cancelled, f.report);
    }
  }

  lemma CancelledConsumingIsMute(interval: real, s: State, x: Input)
    requires s.life.execution.Cancelling? && x.event.Consume?
    ensures Speeches(Step(interval, s, x).log) == Speeches(s.log)
  {
    var r := Accept(interval, s, x.event.event, x.faults, x.first, x.second);
    CancelledEventsAreMute(interval, s, x.event.event, x.faults, x.first, x.second);
    FailIsMute(r.state, true, x.faults.stop, x.faults.report);
  }

  /** Over, without its stream, or cancelled. */
  ghost predicate IsMute(s: State) {
    Inv(s) && (s.terminal || s.calls.drained || Read(s.log).cancelled)
  }

  lemma DrainedStays(interval: real, s: State, x: Input)
    requires s.calls.drained
    ensures Step(interval, s, x).calls.drained
  {
    if !IsStream(x.event) { ControlsDoNotDrain(interval, s, x); }
  }

  lemma CancellingStays(interval: real, s: State, x: Input)
    requires Inv(s) && s.life.execution.Cancelling? && !Step(interval, s, x).terminal
    ensures Step(interval, s, x).life.execution.Cancelling?
  {
  }

  lemma MuteStep(interval: real, s: State, x: Input)
    requires IsMute(s)
    ensures IsMute(Step(interval, s, x)) && Speeches(Step(interval, s, x).log) == Speeches(s.log)
  {
    StepKeeps(interval, s, x);
    if s.terminal {
      FrozenStep(interval, s, x);
    } else if !IsStream(x.event) {
      ControlsAreMute(interval, s, x);
      MuteControl(interval, s, x);
    } else if s.calls.drained {
      DrainedStays(interval, s, x);
    } else {
      if x.event.Consume? { CancelledConsumingIsMute(interval, s, x); } else { EndsAreMute(interval, s, x); }
      if !Step(interval, s, x).terminal { CancellingStays(interval, s, x); }
    }
  }

  lemma MuteControl(interval: real, s: State, x: Input)
    requires IsMute(s) && !s.terminal && !IsStream(x.event)
    ensures IsMute(Step(interval, s, x))
  {
    StepKeeps(interval, s, x);
    if s.calls.drained {
      DrainedStays(interval, s, x);
    } else if !Step(interval, s, x).terminal {
      CancellingStays(interval, s, x);
    }
  }

  lemma {:induction false} MuteStays(interval: real, s: State, inputs: seq<Input>)
    requires IsMute(s)
    ensures IsMute(Continue(interval, s, inputs)) && Speeches(Continue(interval, s, inputs).log) == Speeches(s.log)
    decreases |inputs|
  {
    if inputs != [] {
      MuteStays(interval, s, inputs[..|inputs| - 1]);
      MuteStep(interval, Continue(interval, s, inputs[..|inputs| - 1]), inputs[|inputs| - 1]);
    }
  }

  // ----- a hang-up before the start -----

  /** A hang-up before the executor reports its start is not a cancel the lifecycle accepts: it
      asks the executor to cancel and changes nothing else. */
  lemma EarlyHangUpIsNotACancel(interval: real, s: State, x: Input)
    requires x.event.EndSession? && !s.terminal && s.life.execution.Idle?
    ensures Step(interval, s, x) == s.(calls := Step(interval, s, x).calls)
    ensures Step(interval, s, x).calls.cancelCall != NotCalled
    ensures Step(interval, s, x).calls.drained == s.calls.drained
  {
  }

  lemma SilentRunSpeaks(interval: real, s: State, at: real)
    requires s.life == Lifecycle(Idle, false) && !s.terminal && !s.calls.drained
    ensures var t := Step(interval, s, Input(Consume(RunStarted), NO_FAULTS, at, at));
      var u := Step(interval, t, Input(Consume(TextFinal("done")), NO_FAULTS, at, at));
      && u.life == Lifecycle(Running, true) && !u.terminal && u.reported == s.reported && !u.calls.drained
      && u.log == s.log + [FannedOut(RunStarted)] + [FannedOut(TextFinal("done"))]
                + [Spoke(Answer, Staged("done", s.described), at, false)]
  {
  }

  lemma IdleRunMaySpeak(interval: real, s: State, at: real)
    requires s.life == Lifecycle(Idle, false) && !s.terminal && !s.calls.drained
    ensures MaySpeak(interval, s)
  {
    var x1, x2 := Input(Consume(RunStarted), NO_FAULTS, at, at), Input(Consume(TextFinal("done")), NO_FAULTS, at, at);
    ContinueMore(interval, s, [], x1);
    ContinueMore(interval, s, [] + [x1], x2);
    SilentRunSpeaks(interval, s, at);
    Push(s.log, FannedOut(RunStarted));
    Push(s.log + [FannedOut(RunStarted)], FannedOut(TextFinal("done")));
    Push(s.log + [FannedOut(RunStarted)] + [FannedOut(TextFinal("done"))],
         Spoke(Answer, Staged("done", s.described), at, false));
    assert Speeches(Continue(interval, s, [] + [x1] + [x2]).log) > Speeches(s.log);
  }

  lemma HangUpMutes(interval: real, s: State, x: Input)
    requires Inv(s) && x.event.EndSession? && (s.terminal || s.calls.drained || !s.life.execution.Idle?)
    ensures IsMute(Step(interval, s, x))
  {
    StepKeeps(interval, s, x);
    if s.terminal {
      FrozenStep(interval, s, x);
    } else if s.calls.drained {
      DrainedStays(interval, s, x);
    } else if IsLive(s.life.execution) {
      HangUpCancels(interval, s, x);
    } else {
      CancellingStays(interval, s, x);
    }
  }

  lemma HangUpCancels(interval: real, s: State, x: Input)
    requires Inv(s) && !s.terminal && x.event.EndSession? && IsLive(s.life.execution)
    ensures Step(interval, s, x).life.execution.Cancelling? && !Step(interval, s, x).terminal
  {
  }

  /** Something may be heard of a run after `endSession` if and only if the hang-up came before the
      executor reported its start, to a run whose stream has not ended. */
  lemma HangUpSilencesIff(interval: real, s: State, x: Input)
    requires Inv(s) && x.event.EndSession?
    ensures MaySpeak(interval, Step(interval, s, x)) <==> s.life.execution.Idle? && !s.terminal && !s.calls.drained
  {
    var t := Step(interval, s, x);
    if s.life.execution.Idle? && !s.terminal && !s.calls.drained {
      EarlyHangUpIsNotACancel(interval, s, x);
      IdleRunMaySpeak(interval, t, x.first);
    } else {
      HangUpMutes(interval, s, x);
      forall inputs ensures Speeches(Continue(interval, t, inputs).log) == Speeches(t.log) {
        MuteStays(interval, t, inputs);
      }
    }
  }

  lemma SpeakingRunCompletes(interval: real, s: State, at: real)
    requires s.life.execution.Running? && !s.terminal && !s.reported && !s.calls.drained && s.pending.None?
    ensures var t := Step(interval, s, Input(Consume(RunCompleted(None)), NO_FAULTS, at, at));
      t.log == s.log + [FannedOut(RunCompleted(None)), Reported(Completed)]
  {
  }

  /** Such a run may start, speak and report completion after `endSession` was called. */
  lemma EarlyHangUpSilencesNothing(interval: real, at: real) returns (inputs: seq<Input>)
    ensures inputs != [] && inputs[0].event.EndSession?
    ensures Run(interval, inputs).log == [
      FannedOut(RunStarted), FannedOut(TextFinal("done")), Spoke(Answer, Staged("done", 0), at, false),
      FannedOut(RunCompleted(None)), Reported(Completed)]
  {
    var x0 := Input(EndSession, NO_FAULTS, at, at);
    var x1 := Input(Consume(RunStarted), NO_FAULTS, at, at);
    var x2 := Input(Consume(TextFinal("done")), NO_FAULTS, at, at);
    var x3 := Input(Consume(RunCompleted(None)), NO_FAULTS, at, at);
    RunStep(interval, [], x0);
    RunStep(interval, [] + [x0], x1);
    RunStep(interval, [] + [x0] + [x1], x2);
    RunStep(interval, [] + [x0] + [x1] + [x2], x3);
    EarlyHangUpIsNotACancel(interval, Initial(), x0);
    SilentRunSpeaks(interval, Run(interval, [] + [x0]), at);
    SpeakingRunCompletes(interval, Run(interval, [] + [x0] + [x1] + [x2]), at);
    inputs := [] + [x0] + [x1] + [x2] + [x3];
  }
}
