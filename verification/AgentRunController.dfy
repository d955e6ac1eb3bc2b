/** The lifecycle and the controller as the classes the gateway runs, method by method against the
    steps of AgentRuns. An out-parameter `threw` stands for leaving a method by an exception. */
module AgentRunControllers {
  import opened Prelude
  import opened AgentRuns

  class AgentLifecycle {
    var executionState: Execution
    var speaking: bool

    ghost function Now(): Lifecycle
      reads this
    {
      Lifecycle(executionState, speaking)
    }

    constructor ()
      ensures Now() == Lifecycle(Idle, false)
    {
      executionState, speaking := Idle, false;
    }

    method MoveExecution(from: set<Execution>, to: Execution) returns (threw: bool)
      modifies this
      ensures threw == (old(executionState) !in from)
      ensures Now() == if threw then old(Now()) else old(Now()).(execution := to)
    {
      threw := executionState !in from;
      if !threw { executionState := to; }
    }

    method StartExecution() returns (threw: bool)
      modifies this
      ensures threw == AgentRuns.StartExecution(old(Now())).None?
      ensures Now() == if threw then old(Now()) else AgentRuns.StartExecution(old(Now())).value
    {
      threw := MoveExecution({Idle}, Running);
    }

    method StartSpeech() returns (threw: bool)
      modifies this
      ensures threw == AgentRuns.StartSpeech(old(Now())).None?
      ensures Now() == if threw then old(Now()) else AgentRuns.StartSpeech(old(Now())).value
    {
      if executionState != Running && executionState != Steering { return true; }
      if speaking { return true; }
      speaking := true;
      threw := false;
    }

    method StopSpeech() returns (stopped: bool)
      modifies this
      ensures stopped == old(speaking)
      ensures Now() == Lifecycle(old(executionState), false)
    {
      stopped := speaking;
      speaking := false;
    }

    method BeginSteering() returns (threw: bool)
      modifies this
      ensures threw == AgentRuns.BeginSteering(old(Now())).None?
      ensures Now() == if threw then old(Now()) else AgentRuns.BeginSteering(old(Now())).value
    {
      threw := MoveExecution({Running}, Steering);
    }

    method FinishSteering() returns (threw: bool)
      modifies this
      ensures threw == AgentRuns.FinishSteering(old(Now())).None?
      ensures Now() == if threw then old(Now()) else AgentRuns.FinishSteering(old(Now())).value
    {
      threw := MoveExecution({Steering}, Running);
    }

    method RequestCancel() returns (accepted: bool, threw: bool)
      modifies this
      ensures accepted == CancelReply(old(Now())).Accepted? && threw == CancelReply(old(Now())).Refused?
      ensures accepted ==> Now() == Lifecycle(Cancelling, false)
      ensures !accepted && !threw ==> Now() == old(Now())
      ensures threw ==> Now() == Lifecycle(old(executionState), false)
    {
      if executionState == Idle || IsTerminal(executionState) { return false, false; }
      speaking := false;
      threw := MoveExecution({Running, Steering}, Cancelling);
      accepted := !threw;
    }

    method Finish(state: Execution) returns (threw: bool)
      requires IsTerminal(state)
      modifies this
      ensures threw == AgentRuns.Finish(old(Now()), state).None?
      ensures Now() == if threw then old(Now()) else AgentRuns.Finish(old(Now()), state).value
    {
      threw := MoveExecution(if state == Cancelled then {Cancelling} else {Running, Steering}, state);
      if !threw { speaking := false; }
    }

    method Fail() returns (threw: bool)
      modifies this
      ensures threw == AgentRuns.Fail(old(Now())).None?
      ensures Now() == if threw then old(Now()) else AgentRuns.Fail(old(Now())).value
    {
      threw := MoveExecution({Idle, Running, Steering, Cancelling}, Failed);
      if !threw { speaking := false; }
    }
  }

  class AgentRunController {
    const lifecycle: AgentLifecycle
    const milestoneIntervalMs: real
    var terminal: bool
    var terminalReported: bool
    var pendingMilestone: Option<Staged>
    var lastAudibleAtMs: Option<real>
    var described: nat
    var awaitingSteer: bool
    var cancelCall: CancelCall
    var closeRequested: bool
    var ending: nat
    var drained: bool
    ghost var cancelCalls: nat
    ghost var closeCalls: nat
    ghost var log: seq<Entry>

    ghost predicate Valid()
      reads this
    {
      closeRequested == (closeCalls > 0)
    }

    ghost function CallsNow(): Calls
      reads this
    {
      Calls(awaitingSteer, cancelCall, cancelCalls, closeCalls, ending, drained)
    }

    ghost function Now(): State
      reads this, lifecycle
    {
      State(lifecycle.Now(), terminal, terminalReported, pendingMilestone, lastAudibleAtMs, described, CallsNow(), log)
    }

    constructor (milestoneIntervalMs: real)
      ensures Valid() && Now() == Initial() && this.milestoneIntervalMs == milestoneIntervalMs && fresh(lifecycle)
    {
      lifecycle := new AgentLifecycle();
      this.milestoneIntervalMs := milestoneIntervalMs;
      terminal, terminalReported, pendingMilestone, lastAudibleAtMs := false, false, None, None;
      awaitingSteer, cancelCall, closeRequested, ending, drained := false, NotCalled, false, 0, false;
      cancelCalls, closeCalls, described, log := 0, 0, 0, [];
    }

    method Deliver(kind: Kind, said: Staged, atMs: real, ghost gated: bool, speakThrows: bool)
      returns (threw: bool)
      requires Valid()
      modifies this, lifecycle
      ensures Valid()
      ensures var r := AgentRuns.Deliver(old(Now()), kind, said, atMs, gated, speakThrows);
        Now() == r.state && threw == r.Threw?
    {
      if terminal { return false; }
      if !lifecycle.speaking {
        var refused := lifecycle.StartSpeech();
        if refused { return true; }
      }
      if speakThrows { return true; }
      log := log + [Spoke(kind, said, atMs, gated)];
      lastAudibleAtMs := Some(atMs);
      threw := false;
    }

    method IntervalElapsed(now: real) returns (elapsed: bool)
      ensures elapsed == Ripe(milestoneIntervalMs, Now(), now)
    {
      elapsed := match lastAudibleAtMs case None => true case Some(last) => now - last >= milestoneIntervalMs;
    }

    method FlushPendingMilestone(now: real, speakThrows: bool) returns (threw: bool)
      requires Valid()
      modifies this, lifecycle
      ensures Valid()
      ensures var r := AgentRuns.FlushPendingMilestone(milestoneIntervalMs, old(Now()), now, speakThrows);
        Now() == r.state && threw == r.Threw?
    {
      if pendingMilestone == None { return false; }
      var elapsed := IntervalElapsed(now);
      if !elapsed { return false; }
      var said := pendingMilestone.value;
      pendingMilestone := None;
      threw := Deliver(Milestone, said, now, true, speakThrows);
    }

    method SpeakMilestone(text: string, now: real, speakThrows: bool) returns (threw: bool)
      requires Valid()
      modifies this, lifecycle
      ensures Valid()
      ensures var r := AgentRuns.SpeakMilestone(milestoneIntervalMs, old(Now()), text, now, speakThrows);
        Now() == r.state && threw == r.Threw?
    {
      var said := Staged(text, described);
      described := described + 1;
      var elapsed := IntervalElapsed(now);
      if elapsed {
        threw := Deliver(Milestone, said, now, true, speakThrows);
        return;
      }
      pendingMilestone := Some(said);
      threw := false;
    }

    method ReportTerminal(state: Execution, callbackThrows: bool) returns (threw: bool)
      requires Valid()
      modifies this, lifecycle
      ensures Valid()
      ensures var r := AgentRuns.ReportTerminal(old(Now()), state, callbackThrows);
        Now() == r.state && threw == r.Threw?
    {
      if terminalReported { return false; }
      terminalReported := true;
      terminal := true;
      pendingMilestone := None;
      log := log + [Reported(state)];
      threw := callbackThrows;
    }

    method FinishRun(state: Execution, callbackThrows: bool) returns (threw: bool)
      requires Valid() && IsTerminal(state)
      modifies this, lifecycle
      ensures Valid()
      ensures var r := AgentRuns.FinishRun(old(Now()), state, callbackThrows);
        Now() == r.state && threw == r.Threw?
    {
      if terminal { return false; }
      pendingMilestone := None;
      threw := lifecycle.Finish(state);
      if threw { return; }
      threw := ReportTerminal(state, callbackThrows);
    }

    method FailRun(stopSpeech: bool, stopThrows: bool, callbackThrows: bool) returns (threw: bool)
      requires Valid()
      modifies this, lifecycle
      ensures Valid()
      ensures var r := AgentRuns.FailRun(old(Now()), stopSpeech, stopThrows, callbackThrows);
        Now() == r.state && threw == r.Threw?
    {
      if terminal { return false; }
      if stopSpeech && stopThrows { return true; }
      pendingMilestone := None;
      threw := lifecycle.Fail();
      if threw { return; }
      threw := ReportTerminal(Failed, callbackThrows);
    }

    method AcceptTool(milestone: Option<string>, f: Faults, first: real, second: real) returns (threw: bool)
      requires Valid()
      modifies this, lifecycle
      ensures Valid()
      ensures var r := AgentRuns.AcceptTool(milestoneIntervalMs, old(Now()), milestone, f, first, second);
        Now() == r.state && threw == r.Threw?
    {
      threw := FlushPendingMilestone(first, f.flush);
      if threw { return; }
      if f.describe { return true; }
      if milestone.Some? {
        threw := SpeakMilestone(milestone.value, second, f.speak);
      }
    }

    method NarrateAndFinish(said: Staged, f: Faults, at: real) returns (threw: bool)
      requires Valid()
      modifies this, lifecycle
      ensures Valid()
      ensures var r := AgentRuns.NarrateAndFinish(old(Now()), said, f, at);
        Now() == r.state && threw == r.Threw?
    {
      threw := Deliver(Milestone, said, at, false, f.speak);
      if threw { return; }
      threw := FinishRun(Completed, f.report);
    }

    method CountMilestone(text: string) returns (said: Staged)
      requires Valid()
      modifies this
      ensures Valid() && Now() == Counted(old(Now())) && said == Staged(text, old(described))
    {
      said := Staged(text, described);
      described := described + 1;
      pendingMilestone := None;
    }

    method Conclude(milestone: Option<string>, f: Faults, at: real) returns (threw: bool)
      requires Valid()
      modifies this, lifecycle
      ensures Valid()
      ensures var r := AgentRuns.Conclude(old(Now()), milestone, f, at);
        Now() == r.state && threw == r.Threw?
    {
      if f.describe { return true; }
      if milestone.None? {
        threw := FinishRun(Completed, f.report);
        return;
      }
      if f.drop { return true; }
      var said := CountMilestone(milestone.value);
      threw := NarrateAndFinish(said, f, at);
    }

    method AcceptCompletion(milestone: Option<string>, f: Faults, first: real, second: real) returns (threw: bool)
      requires Valid()
      modifies this, lifecycle
      ensures Valid()
      ensures var r := AgentRuns.AcceptCompletion(milestoneIntervalMs, old(Now()), milestone, f, first, second);
        Now() == r.state && threw == r.Threw?
    {
      threw := FlushPendingMilestone(first, f.flush);
      if threw { return; }
      threw := Conclude(milestone, f, second);
    }

    method AcceptFailure(narration: string, f: Faults, at: real) returns (threw: bool)
      requires Valid()
      modifies this, lifecycle
      ensures Valid()
      ensures var r := AgentRuns.AcceptFailure(old(Now()), narration, f, at);
        Now() == r.state && threw == r.Threw?
    {
      if f.drop { return true; }
      pendingMilestone := None;
      if f.narrate { return true; }
      threw := Deliver(Failure, Staged(narration, described), at, false, f.speak);
      if threw { return; }
      threw := lifecycle.Finish(Failed);
      if threw { return; }
      threw := ReportTerminal(Failed, f.report);
    }

    method SpeakAnswer(text: string, f: Faults, first: real, second: real) returns (threw: bool)
      requires Valid()
      modifies this, lifecycle
      ensures Valid()
      ensures var r := AgentRuns.Dispatch(milestoneIntervalMs, old(Now()), TextFinal(text), f, first, second);
        Now() == r.state && threw == r.Threw?
    {
      if f.drop { return true; }
      pendingMilestone := None;
      threw := Deliver(Answer, Staged(text, described), second, false, f.speak);
    }

    method Dispatch(event: AgentEvent, f: Faults, first: real, second: real) returns (threw: bool)
      requires Valid()
      modifies this, lifecycle
      ensures Valid()
      ensures var r := AgentRuns.Dispatch(milestoneIntervalMs, old(Now()), event, f, first, second);
        Now() == r.state && threw == r.Threw?
    {
      threw := false;
      match event
      case RunStarted => threw := lifecycle.StartExecution();
      case TextFinal(text) => threw := SpeakAnswer(text, f, first, second);
      case ToolEvent(milestone) => threw := AcceptTool(milestone, f, first, second);
      case RunCompleted(milestone) => threw := AcceptCompletion(milestone, f, first, second);
      case RunFailed(narration) => threw := AcceptFailure(narration, f, second);
      case RunCancelled => threw := FinishRun(Cancelled, f.report);
      case RunSteered =>
      case TextDelta =>
    }

    method Accept(event: AgentEvent, f: Faults, first: real, second: real) returns (threw: bool)
      requires Valid()
      modifies this, lifecycle
      ensures Valid()
      ensures var r := AgentRuns.Accept(milestoneIntervalMs, old(Now()), event, f, first, second);
        Now() == r.state && threw == r.Threw?
    {
      if terminal { return false; }
      if lifecycle.executionState == Cancelling {
        threw := false;
        match event {
          case RunCancelled =>
            if f.fanOut { return true; }
            log := log + [FannedOut(event)];
            threw := FinishRun(Cancelled, f.report);
          case RunCompleted(_) => threw := FinishRun(Cancelled, f.report);
          case RunFailed(_) => threw := FinishRun(Cancelled, f.report);
          case _ =>
        }
        return;
      }
      if f.fanOut { return true; }
      log := log + [FannedOut(event)];
      threw := Dispatch(event, f, first, second);
    }

    method Consume(event: AgentEvent, f: Faults, first: real, second: real)
      requires Valid()
      modifies this, lifecycle
      ensures Valid()
      ensures Now() == Step(milestoneIntervalMs, old(Now()), Input(AgentRuns.Consume(event), f, first, second))
    {
      hide AgentRuns.Accept, AgentRuns.FailRun, Inv;
      if drained { return; }
      var threw := Accept(event, f, first, second);
      if threw {
        var again := FailRun(true, f.stop, f.report);
        drained := true;
      } else if terminal {
        drained := true;
      }
    }

    method EndStream(f: Faults, first: real, second: real)
      requires Valid()
      modifies this, lifecycle
      ensures Valid()
      ensures Now() == Step(milestoneIntervalMs, old(Now()), Input(StreamEnds, f, first, second))
    {
      if drained { return; }
      var threw := FailRun(true, f.stop, f.report);
      if threw {
        var again := FailRun(true, f.stopAgain, f.report);
      }
      drained := true;
    }

    method BreakStream(f: Faults, first: real, second: real)
      requires Valid()
      modifies this, lifecycle
      ensures Valid()
      ensures Now() == Step(milestoneIntervalMs, old(Now()), Input(StreamBreaks, f, first, second))
    {
      if drained { return; }
      var threw := FailRun(true, f.stop, f.report);
      drained := true;
    }

    method StopSpeech(f: Faults, first: real, second: real) returns (stopped: bool)
      requires Valid()
      modifies this, lifecycle
      ensures Valid()
      ensures Now() == Step(milestoneIntervalMs, old(Now()), Input(AgentRuns.StopSpeech, f, first, second))
      ensures stopped == (old(lifecycle.speaking) && !f.stop)
    {
      stopped := lifecycle.StopSpeech();
      if !stopped { return; }
      if f.stop { return false; }
      pendingMilestone := None;
      lastAudibleAtMs := Some(first);
      log := log + [Silenced(first)];
    }

    method BeginSteer(f: Faults, first: real, second: real) returns (threw: bool)
      requires Valid()
      modifies this, lifecycle
      ensures Valid()
      ensures Now() == Step(milestoneIntervalMs, old(Now()), Input(Steer, f, first, second))
      ensures threw == (old(terminal) || old(lifecycle.executionState) != Running || f.drop)
    {
      if terminal { return true; }
      threw := lifecycle.BeginSteering();
      if threw { return; }
      if f.drop { return true; }
      pendingMilestone := None;
      awaitingSteer := true;
    }

    method SettleSteer(f: Faults, first: real, second: real)
      requires Valid()
      modifies this, lifecycle
      ensures Valid()
      ensures Now() == Step(milestoneIntervalMs, old(Now()), Input(SteerSettles, f, first, second))
    {
      if !awaitingSteer { return; }
      awaitingSteer := false;
      if lifecycle.executionState == Steering {
        var threw := lifecycle.FinishSteering();
      }
    }

    method CloseRun()
      requires Valid()
      modifies this
      ensures Valid() && Now() == AgentRuns.CloseRun(old(Now()))
    {
      if !closeRequested {
        closeRequested := true;
        closeCalls := closeCalls + 1;
      }
    }

    method CancelRun()
      requires Valid()
      modifies this
      ensures Valid() && Now() == AgentRuns.CancelRun(old(Now()))
    {
      if cancelCall == NotCalled {
        cancelCall := Outstanding;
        cancelCalls := cancelCalls + 1;
      }
    }

    /** Asks the lifecycle for the cancel and, when it is accepted, silences the mouth. */
    method RequestCancel(f: Faults, at: real) returns (accepted: bool, threw: bool)
      requires Valid() && lifecycle.executionState != Cancelling
      modifies this, lifecycle
      ensures Valid() && accepted == CancelReply(old(lifecycle.Now())).Accepted?
      ensures accepted ==> var r := TakeCancel(old(Now()), f, at); Now() == r.state && threw == r.Threw?
      ensures !accepted ==> Now() == old(Now()) && !threw
    {
      accepted, threw := lifecycle.RequestCancel();
      if !accepted { return; }
      log := log + [CancelAccepted];
      if f.stop { return true, true; }
      pendingMilestone := None;
      lastAudibleAtMs := Some(at);
      log := log + [Silenced(at)];
    }

    method Cancel(f: Faults, first: real, second: real)
      requires Valid()
      modifies this, lifecycle
      ensures Valid()
      ensures Now() == Step(milestoneIntervalMs, old(Now()), Input(AgentRuns.Cancel, f, first, second))
    {
      if terminal || lifecycle.executionState == Cancelling { return; }
      var accepted, threw := RequestCancel(f, first);
      if !accepted || threw { return; }
      CancelRun();
    }

    method FailAndClose(f: Faults)
      requires Valid()
      modifies this, lifecycle
      ensures Valid() && Now() == AgentRuns.FailAndClose(old(Now()), f)
    {
      var threw := FailRun(false, false, f.report);
      if threw { return; }
      CloseRun();
    }

    method SettleCancel(rejected: bool, f: Faults, first: real, second: real)
      requires Valid()
      modifies this, lifecycle
      ensures Valid()
      ensures Now() == Step(milestoneIntervalMs, old(Now()), Input(CancelSettles(rejected), f, first, second))
    {
      if cancelCall != Outstanding { return; }
      cancelCall := Settled;
      if rejected {
        FailAndClose(f);
      }
    }

    method BeginEnd()
      requires Valid()
      modifies this
      ensures Valid() && Now() == AgentRuns.BeginEnd(old(Now()))
    {
      ending := ending + 1;
      if terminal {
        CloseRun();
      } else {
        CancelRun();
      }
    }

    method EndSession(f: Faults, first: real, second: real)
      requires Valid()
      modifies this, lifecycle
      ensures Valid()
      ensures Now() == Step(milestoneIntervalMs, old(Now()), Input(AgentRuns.EndSession, f, first, second))
    {
      if !terminal && lifecycle.executionState != Cancelling {
        var accepted, threw := RequestCancel(f, first);
        if threw { return; }
      }
      BeginEnd();
    }

    method CleanUp(f: Faults, first: real, second: real)
      requires Valid()
      modifies this
      ensures Valid()
      ensures Now() == Step(milestoneIntervalMs, old(Now()), Input(AgentRuns.CleanUp, f, first, second))
    {
      if ending > 0 && cancelCall == Settled {
        CloseRun();
      }
    }

    method TimeOut(f: Faults, first: real, second: real)
      requires Valid()
      modifies this, lifecycle
      ensures Valid()
      ensures Now() == Step(milestoneIntervalMs, old(Now()), Input(Timeout, f, first, second))
    {
      if ending == 0 { return; }
      ending := ending - 1;
      CloseRun();
      var threw := FailRun(false, false, f.report);
    }
  }
}
