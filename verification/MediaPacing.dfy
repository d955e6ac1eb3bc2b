/** The player keeps up (apps/realtime-gateway/src/session.ts:1079-1169): a frame waits for its
    turn exactly as long as the audio before it is ahead of the clock by more than the burst. */
module MediaPacing {
  import opened Prelude
  import opened MediaPlayer

  // ----- when a frame is due -----

  /** The pace starts with the first frame that reaches the wait, and each frame is due when the audio
      before it is ahead of the clock by no more than the burst. */
  ghost predicate DueOk(s: State) {
    s.pump.Pacing? ==>
      s.paceStart.Some? && s.pump.dueMs == s.paceStart.value + MaxReal(0.0, s.pacedMs - INITIAL_BURST_MS)
  }

  lemma StepKeepsDue(r: Rendition, s: State, e: Event)
    requires r.sampleRate >= 1 && DueOk(s)
    ensures DueOk(Step(r, s, e))
  {
    hide Ms, NextSlice, SubmitStep;
    if e.Submit? { SubmitDoesNotPace(r, s, e.delivery); }
  }

  lemma SubmitDoesNotPace(r: Rendition, s: State, delivery: Delivery)
    requires r.sampleRate >= 1
    ensures SubmitStep(r, s, delivery).pump.Pacing? ==> SubmitStep(r, s, delivery) == s
  {
    hide HeadTaken;
  }

  lemma {:induction false} RunKeepsDue(r: Rendition, events: seq<Event>)
    requires r.sampleRate >= 1
    ensures DueOk(Run(r, events))
    decreases |events|
  {
    if events != [] {
      RunKeepsDue(r, events[..|events| - 1]);
      StepKeepsDue(r, Run(r, events[..|events| - 1]), events[|events| - 1]);
    }
  }

  /** Audio submitted is ahead of the clock by more than the burst. */
  predicate Ahead(r: Rendition, s: State)
    requires r.sampleRate >= 1
  {
    s.paceStart.Some? && Ms(r, FrameTotal(s.log.submitted)) > s.clock - s.paceStart.value + 200.0
  }

  /** The wait answers, with the frame it was for, exactly when the submitted audio is not ahead of the
      clock by more than the burst. */
  lemma PaceAnswersIff(r: Rendition, events: seq<Event>)
    requires IsRendition(r) && Run(r, events).pump.Pacing? && !Run(r, events).aborted
    ensures var s := Run(r, events);
      && s.queue != [] && s.paceStart.Some?
      && AnswerPaceStep(s) == if Ahead(r, s) then s else s.(pump := Cleared(s.queue[0]))
  {
    RunKeeps(r, events);
    RunKeepsDue(r, events);
  }

  /** The pace is counted from the moment the first frame reached the wait. */
  lemma {:induction false} PaceStartsWithFirstFrame(r: Rendition, events: seq<Event>) returns (n: nat)
    requires IsRendition(r) && Run(r, events).paceStart.Some?
    ensures n < |events| && events[n] == PassGate(Writable)
    ensures var s := Run(r, events[..n]);
      s.paceStart.None? && s.log.submitted == [] && s.clock == Run(r, events).paceStart.value
    decreases |events|
  {
    var before, e := events[..|events| - 1], events[|events| - 1];
    var s := Run(r, before);
    if s.paceStart.Some? {
      n := PaceStartsWithFirstFrame(r, before);
      assert events[..n] == before[..n];
      PaceStartStays(r, s, e);
    } else {
      n := |before|;
      RunKeeps(r, before);
      OnlyAGateStarts(r, s, e);
    }
  }

  lemma WriterKeepsPaceStart(r: Rendition, s: State, e: Event)
    requires r.sampleRate >= 1
    requires e.Tick? || e.WriteCall? || e.AskRoom? || e.Push? || e.CloseCall?
    ensures Step(r, s, e).paceStart == s.paceStart
  {
  }

  lemma PumpKeepsPaceStart(r: Rendition, s: State, e: Event)
    requires r.sampleRate >= 1
    requires e.AnswerPace? || e.Submit? || e.Drained? || e.PumpEnded? || e.Abort? || e.CloseDone?
    ensures Step(r, s, e).paceStart == s.paceStart
  {
  }

  lemma GateAndPaceStart(r: Rendition, s: State, gate: Gate)
    requires r.sampleRate >= 1
    ensures var t := Step(r, s, PassGate(gate));
      t.paceStart == s.paceStart || (s.paceStart.None? && gate == Writable && t.paceStart == Some(s.clock))
  {
  }

  lemma PaceStartStays(r: Rendition, s: State, e: Event)
    requires r.sampleRate >= 1 && s.paceStart.Some?
    ensures Step(r, s, e).paceStart == s.paceStart
  {
    hide Step;
    match e
    case PassGate(gate) => GateAndPaceStart(r, s, gate);
    case Tick(_) => WriterKeepsPaceStart(r, s, e);
    case WriteCall(_) => WriterKeepsPaceStart(r, s, e);
    case AskRoom => WriterKeepsPaceStart(r, s, e);
    case Push => WriterKeepsPaceStart(r, s, e);
    case CloseCall => WriterKeepsPaceStart(r, s, e);
    case _ => PumpKeepsPaceStart(r, s, e);
  }

  lemma OnlyAGateStarts(r: Rendition, s: State, e: Event)
    requires r.sampleRate >= 1 && s.paceStart.None? && Step(r, s, e).paceStart.Some?
    ensures e == PassGate(Writable) && Step(r, s, e).paceStart.value == s.clock
  {
    hide Step;
    match e
    case PassGate(gate) => GateAndPaceStart(r, s, gate);
    case AnswerPace => PumpKeepsPaceStart(r, s, e);
    case Submit(_) => PumpKeepsPaceStart(r, s, e);
    case Drained(_) => PumpKeepsPaceStart(r, s, e);
    case PumpEnded => PumpKeepsPaceStart(r, s, e);
    case Abort => PumpKeepsPaceStart(r, s, e);
    case CloseDone(_) => PumpKeepsPaceStart(r, s, e);
    case _ => WriterKeepsPaceStart(r, s, e);
  }

  // ----- the queue gets out in time -----

  /** A player at work over a queue. */
  predicate AtWork(s: State) {
    s.queue != [] && !s.aborted && !s.failed
  }

  /** No more audio has come in, and the rendition has not ended meanwhile. */
  predicate SameSource(s: State, t: State) {
    t.log.resampled == s.log.resampled && t.end == s.end && (s.writer.NotWriting? ==> t.writer.NotWriting?)
  }

  /** The next frame has left the queue for the socket. */
  predicate SentNext(s: State, t: State) {
    && s.queue != [] && AtWorkOrEmpty(t) && t.queue == s.queue[1..]
    && t.log.submitted == s.log.submitted + [s.queue[0]] && t.log.produced == s.log.produced && SameSource(s, t)
  }

  predicate AtWorkOrEmpty(s: State) {
    !s.aborted && !s.failed
  }

  /** How many waits there are before the next frame is submitted. */
  function WaitsLeft(pump: Pump): nat {
    match pump
    case Ending => 4
    case Pressured => 4
    case AtHead => 3
    case Pacing(_, _) => 2
    case _ => 1
  }

  /** The pump's next segment, the socket being writable: no queue is touched before the submission. */
  function PumpNext(s: State): Event {
    match s.pump
    case Ending => PumpEnded
    case Pressured => Drained(Writable)
    case AtHead => PassGate(Writable)
    case Pacing(_, _) => AnswerPace
    case _ => Submit(Sent)
  }

  /** When the pace is counted from, once it is. */
  function Start(s: State): real {
    if s.paceStart.Some? then s.paceStart.value else s.clock
  }

  /** The same audio is queued and was submitted, and no time has passed. */
  predicate SameAudio(s: State, t: State) {
    && t.queue == s.queue && t.log.submitted == s.log.submitted && t.log.produced == s.log.produced
    && t.aborted == s.aborted && t.failed == s.failed && t.clock == s.clock && Start(t) == Start(s)
    && SameSource(s, t)
  }

  predicate MovesOn(s: State, t: State) {
    SameAudio(s, t) && WaitsLeft(t.pump) < WaitsLeft(s.pump)
  }

  lemma GateReachesWait(r: Rendition, s: State)
    requires r.sampleRate >= 1 && AtWork(s) && s.pump == AtHead && Timed(r, s) && !Ahead(r, s)
    ensures var t := Step(r, s, PassGate(Writable)); MovesOn(s, t) && !Ahead(r, t)
  {
  }

  /** The pump restarts, or hears that the socket drained. */
  lemma PumpReachesGate(r: Rendition, s: State)
    requires r.sampleRate >= 1 && AtWork(s) && (s.pump == Ending || s.pump == Pressured) && !Ahead(r, s)
    ensures var t := Step(r, s, PumpNext(s)); MovesOn(s, t) && !Ahead(r, t)
  {
  }

  lemma PumpMovesOn(r: Rendition, s: State)
    requires r.sampleRate >= 1 && Inv(r, s) && DueOk(s) && AtWork(s) && !s.pump.Cleared? && !Ahead(r, s)
    ensures var t := Step(r, s, PumpNext(s)); MovesOn(s, t) && !Ahead(r, t)
  {
    if s.pump == AtHead {
      GateReachesWait(r, s);
    } else if !s.pump.Pacing? {
      PumpReachesGate(r, s);
    }
  }

  lemma FrameGoesOut(r: Rendition, s: State)
    requires r.sampleRate >= 1 && Inv(r, s) && AtWork(s) && s.pump.Cleared?
    ensures var t := Step(r, s, Submit(Sent));
      t.queue == s.queue[1..] && t.log.submitted == s.log.submitted + [s.queue[0]]
      && t.log.produced == s.log.produced && t.aborted == s.aborted && t.failed == s.failed
      && t.clock == s.clock && t.paceStart == s.paceStart && SameSource(s, t)
  {
  }

  /** No time passes, and the socket takes what it is given. */
  ghost predicate Prompt(events: seq<Event>) {
    forall k :: 0 <= k < |events| ==>
      events[k] == PumpEnded || events[k] == Drained(Writable) || events[k] == PassGate(Writable)
      || events[k] == AnswerPace || events[k] == Submit(Sent)
  }

  /** With a writable socket a queue waits only while the submitted audio is ahead of the clock by more
      than the burst: when it is not, its next frame goes out without any time passing. */
  lemma {:induction false} NextFrameGoesOut(r: Rendition, events: seq<Event>) returns (more: seq<Event>)
    requires IsRendition(r) && AtWork(Run(r, events)) && !Ahead(r, Run(r, events))
    ensures Prompt(more)
    ensures var s, t := Run(r, events), Run(r, events + more);
      SentNext(s, t) && t.clock == s.clock && Start(t) == Start(s)
    decreases WaitsLeft(Run(r, events).pump)
  {
    hide Step, Run, Inv, DueOk, Ahead;
    var s := Run(r, events);
    RunKeeps(r, events);
    RunKeepsDue(r, events);
    var e := PumpNext(s);
    RunOn(r, events, e);
    if s.pump.Cleared? {
      FrameGoesOut(r, s);
      more := [e];
    } else {
      PumpMovesOn(r, s);
      var rest := NextFrameGoesOut(r, events + [e]);
      assert events + [e] + rest == events + ([e] + rest);
      more := [e] + rest;
    }
  }

  /** By when all of it has been sent: the total less the burst, or at once. */
  function InTime(r: Rendition, s: State): real
    requires r.sampleRate >= 1
  {
    MaxReal(s.clock, Start(s) + Ms(r, FrameTotal(s.log.produced)) - 200.0)
  }

  lemma {:induction false} PrefixIsShorter(a: seq<Frame>, b: seq<Frame>)
    requires a <= b
    ensures FrameTotal(a) <= FrameTotal(b)
    decreases |b|
  {
    if |a| < |b| {
      PrefixIsShorter(a, b[..|b| - 1]);
    } else {
      assert a == b;
    }
  }

  /** The moment the next frame is due. */
  lemma WaitUntilDue(r: Rendition, s: State) returns (e: Event)
    requires r.sampleRate >= 1 && Inv(r, s) && Ahead(r, s)
    ensures e.Tick? && s.clock <= e.now <= InTime(r, s)
    ensures Step(r, s, e) == s.(clock := e.now) && !Ahead(r, Step(r, s, e)) && InTime(r, Step(r, s, e)) == InTime(r, s)
  {
    e := Tick(s.paceStart.value + Ms(r, FrameTotal(s.log.submitted)) - 200.0);
    PrefixIsShorter(s.log.submitted, s.log.produced);
    MsGrows(r, FrameTotal(s.log.submitted), FrameTotal(s.log.produced));
  }

  /** From any moment of any run, what is queued can all be sent, by the time the total less the burst
      has been played. */
  lemma {:induction false} QueueGoesOutInTime(r: Rendition, events: seq<Event>) returns (more: seq<Event>)
    requires IsRendition(r) && AtWorkOrEmpty(Run(r, events))
    ensures var s, t := Run(r, events), Run(r, events + more);
      && t.queue == [] && AtWorkOrEmpty(t) && t.log.produced == s.log.produced
      && t.log.submitted == s.log.submitted + s.queue && t.clock <= InTime(r, s) && SameSource(s, t)
    decreases |Run(r, events).queue|
  {
    hide Step, Run, Inv, Ahead;
    var s := Run(r, events);
    if s.queue == [] {
      more := [];
      assert events + more == events;
    } else {
      var first := [];
      if Ahead(r, s) {
        RunKeeps(r, events);
        var e := WaitUntilDue(r, s);
        RunOn(r, events, e);
        first := [e];
      } else {
        assert events + first == events;
      }
      var next := NextFrameGoesOut(r, events + first);
      var rest := QueueGoesOutInTime(r, events + first + next);
      more := first + next + rest;
      assert events + first + next + rest == events + more;
    }
  }

  // ----- packets -----

  /** The samples of a full packet: the packet's length at the rendition's rate, and at least one. */
  function FullPacket(r: Rendition): int {
    Max(1, r.sampleRate * r.packetMs / 1000)
  }

  /** An admitted writer queues one full packet of what it still holds, or all of it if that is less, and
      goes on with the rest. */
  lemma PushCutsAPacket(r: Rendition, s: State)
    requires IsRendition(r) && s.writer.Admitted?
    ensures var t, n := Step(r, s, Push), if |s.writer.rest| < FullPacket(r) then |s.writer.rest| else FullPacket(r);
      && |t.queue| == |s.queue| + 1 && t.queue[..|s.queue|] == s.queue
      && t.queue[|s.queue|].samples == s.writer.rest[..n] && Rest(t.writer) == s.writer.rest[n..]
      && t.queuedMs == s.queuedMs + Ms(r, n)
  {
  }

  // ----- failure -----

  /** The transport fails when the socket breaks while the pump or the close waits for it, or does not take a
      frame; nothing else fails it, and an abort comes first. */
  predicate Breaks(s: State, e: Event) {
    match e
    case PassGate(gate) => gate == Broken && s.pump == AtHead && s.queue != []
    case Drained(gate) => gate == Broken && s.pump == Pressured
    case Submit(delivery) => delivery == Lost && s.pump.Cleared?
    case CloseDone(gate) => gate == Broken && s.closed && s.pump == Stopped && s.end == NotEnded
    case _ => false
  }

  lemma PumpFailsIff(r: Rendition, s: State, e: Event)
    requires r.sampleRate >= 1 && (e.PassGate? || e.Drained? || e.Submit? || e.CloseDone?)
    ensures Step(r, s, e).failed <==> s.failed || (!s.aborted && Breaks(s, e))
  {
  }

  lemma OthersDoNotFail(r: Rendition, s: State, e: Event)
    requires r.sampleRate >= 1 && !(e.PassGate? || e.Drained? || e.Submit? || e.CloseDone?)
    ensures Step(r, s, e).failed == s.failed
  {
  }

  lemma FailsIff(r: Rendition, s: State, e: Event)
    requires r.sampleRate >= 1
    ensures Step(r, s, e).failed <==> s.failed || (!s.aborted && Breaks(s, e))
  {
    hide Step;
    if e.PassGate? || e.Drained? || e.Submit? || e.CloseDone? {
      PumpFailsIff(r, s, e);
    } else {
      OthersDoNotFail(r, s, e);
    }
  }

  // ----- backpressure -----

  lemma PressuredStays(r: Rendition, s: State, e: Event)
    requires r.sampleRate >= 1 && s.pump == Pressured && !e.Drained?
    ensures Step(r, s, e).pump == Pressured && Step(r, s, e).log.submitted == s.log.submitted
  {
  }

  /** After a frame the socket took only under pressure nothing more is submitted until the socket has been
      waited for. */
  lemma {:induction false} PressureHolds(r: Rendition, events: seq<Event>, more: seq<Event>)
    requires r.sampleRate >= 1 && Run(r, events).pump.Cleared?
    requires forall k :: 0 <= k < |more| ==> !more[k].Drained?
    ensures var s, t := Run(r, events), Run(r, events + [Submit(SentUnderPressure)] + more);
      t.pump == Pressured && t.log.submitted == s.log.submitted + [s.pump.next]
    decreases |more|
  {
    var first := events + [Submit(SentUnderPressure)];
    RunOn(r, events, Submit(SentUnderPressure));
    if more == [] {
      assert first + more == first;
    } else {
      hide Step;
      var before, e := more[..|more| - 1], more[|more| - 1];
      PressureHolds(r, events, before);
      assert first + more == (first + before) + [e];
      RunOn(r, first + before, e);
      PressuredStays(r, Run(r, first + before), e);
    }
  }

  // ----- the end -----

  /** The pump has nothing to send and stops. */
  function WaitsToStop(pump: Pump): nat {
    match pump
    case Pressured => 3
    case AtHead => 2
    case Ending => 1
    case _ => 0
  }

  lemma PumpStops(r: Rendition, s: State)
    requires r.sampleRate >= 1 && s.queue == [] && AtWorkOrEmpty(s) && Inv(r, s) && s.pump != Stopped
    ensures var t := Step(r, s, PumpNext(s));
      && t.queue == [] && AtWorkOrEmpty(t) && t.log == s.log && t.clock == s.clock && t.end == s.end
      && t.closed == s.closed && t.writer.NotWriting? == s.writer.NotWriting?
      && WaitsToStop(t.pump) < WaitsToStop(s.pump)
  {
  }

  lemma {:induction false} StopsPrompt(r: Rendition, events: seq<Event>) returns (more: seq<Event>)
    requires IsRendition(r) && Run(r, events).queue == [] && AtWorkOrEmpty(Run(r, events))
    ensures Prompt(more)
    ensures var s, t := Run(r, events), Run(r, events + more);
      && t.pump == Stopped && t.queue == [] && AtWorkOrEmpty(t) && t.log == s.log && t.clock == s.clock
      && t.end == s.end && t.closed == s.closed && t.writer.NotWriting? == s.writer.NotWriting?
    decreases WaitsToStop(Run(r, events).pump)
  {
    hide Step, Run, Inv;
    var s := Run(r, events);
    RunKeeps(r, events);
    if s.pump == Stopped {
      more := [];
      assert events + more == events;
    } else {
      var e := PumpNext(s);
      PumpStops(r, s);
      RunOn(r, events, e);
      var rest := StopsPrompt(r, events + [e]);
      assert events + [e] + rest == events + ([e] + rest);
      more := [e] + rest;
    }
  }

  lemma ClosesAndEnds(r: Rendition, s: State)
    requires r.sampleRate >= 1 && Inv(r, s) && AtWorkOrEmpty(s) && s.writer == NotWriting && s.queue == []
    requires s.pump == Stopped && s.end == NotEnded
    ensures var t := Step(r, Step(r, s, CloseCall), CloseDone(Writable));
      t.end != NotEnded && t.log == s.log && t.clock == s.clock
  {
  }

  /** A rendition whose last write has returned can be closed: everything is sent, by the time the total less
      the burst has been played, and the end reports it. */
  lemma RenditionCanEnd(r: Rendition, events: seq<Event>) returns (more: seq<Event>)
    requires IsRendition(r) && AtWorkOrEmpty(Run(r, events)) && Run(r, events).writer == NotWriting
    requires Run(r, events).end == NotEnded
    ensures var s, t := Run(r, events), Run(r, events + more);
      && t.log.submitted == s.log.produced && t.log.resampled == s.log.resampled && t.clock <= InTime(r, s)
      && t.end == if s.log.resampled == [] then Silent else Total(|s.log.resampled|)
  {
    hide Step, Run, Inv;
    var sent := QueueGoesOutInTime(r, events);
    var stop := StopsPrompt(r, events + sent);
    var before := events + sent + stop;
    RunKeeps(r, before);
    ClosesAndEnds(r, Run(r, before));
    RunOn(r, before, CloseCall);
    RunOn(r, before + [CloseCall], CloseDone(Writable));
    more := sent + stop + [CloseCall] + [CloseDone(Writable)];
    assert before + [CloseCall] + [CloseDone(Writable)] == events + more;
    EndTotalsEverything(r, events + more);
  }
}
