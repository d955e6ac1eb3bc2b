/** The outbound Media v2 player (apps/realtime-gateway/src/session.ts, createPlayer): one
    awaited writer fills a bounded queue, one pump paces and submits it. A state is the player
    between two atomic segments; the logs record what was produced, submitted and dropped. */
module MediaPlayer {
  import opened Prelude

  type Sample = real

  const MAX_QUEUED_MS := 1000.0
  const QUEUE_SLACK_MS := 0.001
  const INITIAL_BURST_MS := 200.0

  datatype Rendition = Rendition(sampleRate: nat, packetMs: nat)

  /** What the protocol admits: a positive rate and packets of 1 to 240 ms. */
  predicate IsRendition(r: Rendition) {
    r.sampleRate >= 1 && 1 <= r.packetMs <= 240
  }

  datatype Frame = Frame(sequence: nat, timestamp: nat, start: bool, samples: seq<Sample>)

  function Duration(f: Frame): nat {
    |f.samples|
  }

  /** The writer: about to look for room, asleep until it is woken, or admitted and about to push. */
  datatype Writer =
    | NotWriting
    | AwaitingRoom(rest: seq<Sample>)
    | Asleep(rest: seq<Sample>)
    | Admitted(rest: seq<Sample>)

  /** The audio the writer still has to queue. */
  function Rest(w: Writer): seq<Sample> {
    if w.NotWriting? then [] else w.rest
  }

  /** `await`s of the pump. */
  datatype Pump =
    | Stopped
    | AtHead
    | Pacing(next: Frame, dueMs: real)
    | Cleared(next: Frame)
    | Pressured
    | Ending

  /** How a closed rendition ended: with no audio at all there is no total to report. */
  datatype End = NotEnded | Silent | Total(samples: nat)

  /** What went through the player; `late` marks an abort in the gap of `LateAbort`. */
  datatype Log = Log(
    resampled: seq<Sample>, produced: seq<Frame>, submitted: seq<Frame>, dropped: seq<Frame>, late: bool)

  datatype State = State(
    clock: real, closed: bool, aborted: bool, failed: bool, started: bool,
    writer: Writer, pump: Pump, queue: seq<Frame>, queuedMs: real,
    paceStart: Option<real>, pacedMs: real, nextSequence: nat, nextTimestamp: nat, end: End, log: Log)

  const FRESH := State(0.0, false, false, false, false, NotWriting, Stopped, [], 0.0, None, 0.0, 0, 0, NotEnded,
                       Log([], [], [], [], false))

  datatype Gate = Writable | Cancelled | Broken
  datatype Delivery = Sent | SentUnderPressure | Lost

  datatype Event =
    | Tick(now: real)
    | WriteCall(output: seq<Sample>)
    | AskRoom
    | Push
    | PassGate(gate: Gate)
    | AnswerPace
    | Submit(delivery: Delivery)
    | Drained(gate: Gate)
    | PumpEnded
    | Abort
    | CloseCall
    | CloseDone(gate: Gate)

  // ----- durations -----

  /** One sample's share of a second, in milliseconds. */
  function SampleMs(r: Rendition): real
    requires r.sampleRate >= 1
  {
    1000.0 / r.sampleRate as real
  }

  /** The duration of `n` samples in milliseconds, counted sample by sample. */
  function Ms(r: Rendition, n: nat): real
    requires r.sampleRate >= 1
  {
    if n == 0 then 0.0 else Ms(r, n - 1) + SampleMs(r)
  }

  /** It is the quotient the code computes. */
  lemma {:induction false} MsIsQuotient(r: Rendition, n: nat)
    requires r.sampleRate >= 1
    ensures Ms(r, n) == n as real * 1000.0 / r.sampleRate as real
  {
    if n > 0 {
      MsIsQuotient(r, n - 1);
      Fraction(n - 1, r.sampleRate);
    }
  }

  lemma Fraction(n: nat, rate: nat)
    requires rate >= 1
    ensures (n + 1) as real * 1000.0 / rate as real == n as real * 1000.0 / rate as real + 1000.0 / rate as real
  {
  }

  lemma {:induction false} MsAdds(r: Rendition, m: nat, n: nat)
    requires r.sampleRate >= 1
    ensures Ms(r, m + n) == Ms(r, m) + Ms(r, n)
  {
    if n > 0 {
      MsAdds(r, m, n - 1);
    }
  }

  lemma {:induction false} MsGrows(r: Rendition, m: nat, n: nat)
    requires r.sampleRate >= 1 && m <= n
    ensures 0.0 <= Ms(r, m) <= Ms(r, n)
    decreases n
  {
    if n > 0 {
      MsGrows(r, if m < n then m else n - 1, n - 1);
    }
  }

  function PacketSamples(r: Rendition): nat {
    if r.sampleRate * r.packetMs / 1000 < 1 then 1 else r.sampleRate * r.packetMs / 1000
  }

  /** No packet is longer than the whole queue may be, at any rate from one sample a second up
      and any packet length up to a second: an empty queue always has room. */
  lemma PacketFitsTheQueue(r: Rendition)
    requires r.sampleRate >= 1 && r.packetMs <= 1000
    ensures Ms(r, PacketSamples(r)) <= MAX_QUEUED_MS
    ensures r.sampleRate * r.packetMs >= 1000 ==> Ms(r, PacketSamples(r)) <= r.packetMs as real
  {
    var n := r.sampleRate * r.packetMs / 1000;
    assert n * 1000 <= r.sampleRate * r.packetMs;
    var rate, ms := r.sampleRate as real, r.packetMs as real;
    assert (n * 1000) as real <= (r.sampleRate * r.packetMs) as real == rate * ms;
    Quotient(n as real * 1000.0, ms, rate);
    Quotient(1000.0, 1000.0, rate);
    MsIsQuotient(r, PacketSamples(r));
  }

  lemma Quotient(x: real, y: real, rate: real)
    requires rate >= 1.0 && y >= 0.0
    ensures x <= rate * y ==> x / rate <= y
    ensures x <= y ==> x <= rate * y
  {
    assert (rate - 1.0) * y >= 0.0;
  }

  function FrameTotal(frames: seq<Frame>): nat {
    Sum(Duration, frames)
  }

  /** The slice the writer cuts next. */
  function NextSlice(r: Rendition, rest: seq<Sample>): seq<Sample> {
    if |rest| < PacketSamples(r) then rest else rest[..PacketSamples(r)]
  }

  // ----- the segments -----

  function EnsurePump(s: State): (t: State)
    ensures t.log.late == s.log.late
  {
    if s.pump == Stopped && !s.aborted && !s.failed && s.queue != [] then s.(pump := AtHead) else s
  }

  /** `wakeCapacity`, and what a cancelled wait comes to as well. */
  function Wake(s: State): (t: State)
    ensures t.log.late == s.log.late
  {
    s.(writer := if s.writer.Asleep? then AwaitingRoom(s.writer.rest) else s.writer)
  }

  function FailTransport(s: State): (t: State)
    ensures t.log.late == s.log.late
  {
    if s.failed || s.aborted then s else Wake(s.(failed := true))
  }

  /** `write`: the resampled audio joins what is to be queued. */
  function WriteStep(s: State, output: seq<Sample>): (t: State)
    ensures t.log.late == s.log.late
  {
    if s.closed || s.failed || s.aborted || s.writer != NotWriting || output == [] then s
    else s.(started := true, writer := AwaitingRoom(output), log := s.log.(resampled := s.log.resampled + output))
  }

  predicate HasRoom(r: Rendition, queuedMs: real, rest: seq<Sample>)
    requires r.sampleRate >= 1
  {
    queuedMs + Ms(r, |NextSlice(r, rest)|) <= MAX_QUEUED_MS + QUEUE_SLACK_MS
  }

  /** One look of `waitForCapacity`: give up, be admitted, or fall asleep over a running pump. */
  function AskRoomStep(r: Rendition, s: State): (t: State)
    requires r.sampleRate >= 1
    ensures t.log.late == s.log.late
  {
    match s.writer
    case AwaitingRoom(rest) =>
      if s.aborted || s.failed then s.(writer := NotWriting)
      else if HasRoom(r, s.queuedMs, rest) then s.(writer := Admitted(rest))
      else EnsurePump(s).(writer := Asleep(rest))
    case _ => s
  }

  /** The frame the writer pushes next. */
  function PushedFrame(r: Rendition, s: State): Frame {
    Frame(s.nextSequence, s.nextTimestamp, s.nextSequence == 0, NextSlice(r, Rest(s.writer)))
  }

  function Pushed(r: Rendition, s: State): (t: State)
    requires r.sampleRate >= 1
    ensures t.log.late == s.log.late
  {
    var frame := PushedFrame(r, s);
    var left := Rest(s.writer)[Duration(frame)..];
    s.(nextSequence := s.nextSequence + 1, nextTimestamp := s.nextTimestamp + Duration(frame),
       queue := s.queue + [frame], queuedMs := s.queuedMs + Ms(r, Duration(frame)),
       log := s.log.(produced := s.log.produced + [frame]),
       writer := if left == [] then NotWriting else AwaitingRoom(left))
  }

  function PushStep(r: Rendition, s: State): (t: State)
    requires r.sampleRate >= 1
    ensures t.log.late == s.log.late
  {
    if s.writer.Admitted? then EnsurePump(Pushed(r, s)) else s
  }

  /** The pump's loop head, and the wait for a writable socket. */
  function PassGateStep(s: State, gate: Gate): (t: State)
    ensures t.log.late == s.log.late
  {
    if s.pump != AtHead then s
    else if s.aborted || s.queue == [] || gate == Cancelled then s.(pump := Ending)
    else if gate == Broken then FailTransport(s.(pump := Ending))
    else StartPacing(s)
  }

  function StartPacing(s: State): (t: State)
    requires s.queue != []
    ensures t.log.late == s.log.late
  {
    var start := if s.paceStart.Some? then s.paceStart.value else s.clock;
    s.(pump := Pacing(s.queue[0], start + MaxReal(0.0, s.pacedMs - INITIAL_BURST_MS)), paceStart := Some(start))
  }

  function AnswerPaceStep(s: State): (t: State)
    ensures t.log.late == s.log.late
  {
    match s.pump
    case Pacing(next, dueMs) =>
      if s.aborted then s.(pump := Ending) else if dueMs <= s.clock then s.(pump := Cleared(next)) else s
    case _ => s
  }

  /** The head of the queue is taken off, whatever it is, and the writer is woken. */
  function HeadTaken(r: Rendition, s: State, next: Frame): (t: State)
    requires r.sampleRate >= 1
    ensures t.log.late == s.log.late
  {
    Wake(s.(queue := if s.queue == [] then [] else s.queue[1..],
            queuedMs := MaxReal(0.0, s.queuedMs - Ms(r, Duration(next)))))
  }

  /** The socket did not take the frame: the pump throws and the transport has failed. */
  function FrameLost(s: State, next: Frame): (t: State)
    ensures t.log.late == s.log.late
  {
    FailTransport(s.(pump := Ending, log := s.log.(dropped := s.log.dropped + [next])))
  }

  function FrameSent(r: Rendition, s: State, next: Frame, pressured: bool): (t: State)
    requires r.sampleRate >= 1
    ensures t.log.late == s.log.late
  {
    s.(pump := if pressured then Pressured else AtHead, pacedMs := s.pacedMs + Ms(r, Duration(next)),
       log := s.log.(submitted := s.log.submitted + [next]))
  }

  function SubmitStep(r: Rendition, s: State, delivery: Delivery): (t: State)
    requires r.sampleRate >= 1
    ensures t.log.late == s.log.late
  {
    match s.pump
    case Cleared(next) =>
      var t := HeadTaken(r, s, next);
      if delivery == Lost then FrameLost(t, next) else FrameSent(r, t, next, delivery == SentUnderPressure)
    case _ => s
  }

  function DrainedStep(s: State, gate: Gate): (t: State)
    ensures t.log.late == s.log.late
  {
    if s.pump != Pressured then s
    else if gate == Broken then FailTransport(s.(pump := Ending))
    else if gate == Cancelled || s.aborted then s.(pump := Ending)
    else s.(pump := AtHead)
  }

  function PumpEndedStep(s: State): (t: State)
    ensures t.log.late == s.log.late
  {
    if s.pump != Ending then s else EnsurePump(Wake(s.(pump := Stopped)))
  }

  /** `abort`: what is queued is dropped and the waits are cancelled. A frame whose pace was
      already answered is still submitted, and an admitted writer still queues one frame. */
  function AbortStep(s: State): State {
    if s.aborted then s
    else
      Wake(s.(aborted := true, queue := [], queuedMs := 0.0,
              log := s.log.(dropped := s.log.dropped + s.queue, late := s.pump.Cleared?)))
  }

  /** The end of `close`, once the pump stopped and the socket drained. */
  function CloseDoneStep(s: State, gate: Gate): (t: State)
    ensures t.log.late == s.log.late
  {
    if !s.closed || s.pump != Stopped || s.failed || s.aborted || s.end != NotEnded || gate == Cancelled then s
    else if gate == Broken then FailTransport(s)
    else s.(end := if s.started then Total(s.nextTimestamp) else Silent)
  }

  function Step(r: Rendition, s: State, e: Event): State
    requires r.sampleRate >= 1
  {
    match e
    case Tick(now) => if s.clock <= now then s.(clock := now) else s
    case WriteCall(output) => WriteStep(s, output)
    case AskRoom => AskRoomStep(r, s)
    case Push => PushStep(r, s)
    case PassGate(gate) => PassGateStep(s, gate)
    case AnswerPace => AnswerPaceStep(s)
    case Submit(delivery) => SubmitStep(r, s, delivery)
    case Drained(gate) => DrainedStep(s, gate)
    case PumpEnded => PumpEndedStep(s)
    case Abort => AbortStep(s)
    case CloseCall => if s.writer == NotWriting then EnsurePump(s.(closed := true)) else s
    case CloseDone(gate) => CloseDoneStep(s, gate)
  }

  function Run(r: Rendition, events: seq<Event>): State
    requires r.sampleRate >= 1
  {
    if events == [] then FRESH else Step(r, Run(r, events[..|events| - 1]), events[|events| - 1])
  }

  // ----- the invariant -----

  function Audio(frames: seq<Frame>): seq<Sample> {
    if frames == [] then [] else Audio(frames[..|frames| - 1]) + frames[|frames| - 1].samples
  }

  /** Sequences count up from 0, each timestamp is the total before it, only frame 0 starts, and
      every frame carries some audio but no more than a packet. */
  ghost predicate Numbered(r: Rendition, frames: seq<Frame>) {
    frames != [] ==>
      var before, last := frames[..|frames| - 1], frames[|frames| - 1];
      && Numbered(r, before)
      && last.sequence == |before| && last.timestamp == FrameTotal(before) && (last.start <==> before == [])
      && 0 < Duration(last) <= PacketSamples(r)
  }

  /** What was produced, with what the writer holds, is what was resampled. */
  ghost predicate AudioOk(w: Writer, whole: bool, log: Log) {
    && (w != NotWriting ==> w.rest != [])
    && if w != NotWriting || whole
       then log.resampled == Audio(log.produced) + Rest(w)
       else Audio(log.produced) <= log.resampled
  }

  ghost predicate Covers(r: Rendition, s: State) {
    && Numbered(r, s.log.produced)
    && s.nextSequence == |s.log.produced| && s.nextTimestamp == FrameTotal(s.log.produced)
    && (s.started <==> s.log.resampled != [])
    && AudioOk(s.writer, !s.aborted && !s.failed, s.log)
  }

  /** Submitted frames are the first of the produced ones, and a cleared frame is the next. */
  ghost predicate InOrder(pump: Pump, log: Log) {
    && log.submitted <= log.produced
    && (pump.Cleared? ==> |log.submitted| < |log.produced| && log.produced[|log.submitted|] == pump.next)
  }

  /** The counter keeps its bounds; an admitted writer has room, a sleeping one has none and will
      be woken. */
  ghost predicate RoomOk(r: Rendition, s: State)
    requires r.sampleRate >= 1
  {
    && 0.0 <= s.queuedMs <= MAX_QUEUED_MS + QUEUE_SLACK_MS
    && (s.writer.Admitted? ==> HasRoom(r, s.queuedMs, s.writer.rest))
    && (s.writer.Asleep? ==> !HasRoom(r, s.queuedMs, s.writer.rest) && !s.aborted && !s.failed && s.pump != Stopped)
  }

  /** Submitted audio is ahead of the clock by at most the burst and one packet. */
  ghost predicate PaceOk(r: Rendition, clock: real, pump: Pump, paceStart: Option<real>, pacedMs: real,
                         submitted: seq<Frame>)
    requires r.sampleRate >= 1
  {
    && pacedMs == Ms(r, FrameTotal(submitted))
    && (paceStart.None? ==> submitted == [] && !pump.Pacing? && !pump.Cleared?)
    && (paceStart.Some? ==>
          && pacedMs <= clock - paceStart.value + INITIAL_BURST_MS + Ms(r, PacketSamples(r))
          && paceStart.value <= clock
          && (pump.Pacing? ==> pacedMs <= pump.dueMs - paceStart.value + INITIAL_BURST_MS)
          && (pump.Cleared? ==> pacedMs <= clock - paceStart.value + INITIAL_BURST_MS))
  }

  /** The pump stops on a failure, runs while there is something to send, and holds the head. */
  ghost predicate PumpOk(s: State) {
    && (s.failed && !s.aborted ==> s.pump == Ending || s.pump == Stopped)
    && (s.queue != [] && !s.aborted && !s.failed ==> s.pump != Stopped)
    && (s.pump.Pacing? && !s.aborted ==> s.queue != [] && s.queue[0] == s.pump.next)
    && (s.closed ==> s.writer == NotWriting)
  }

  /** Produced frames are, in order, those submitted, then those dropped, then those queued. */
  ghost predicate Conserved(log: Log, queue: seq<Frame>) {
    log.produced == log.submitted + log.dropped + queue
  }

  /** Without a late abort every frame is accounted for, and the counter is the sum over the queue. */
  ghost predicate Exact(r: Rendition, s: State)
    requires r.sampleRate >= 1
  {
    && Conserved(s.log, s.queue)
    && s.queuedMs == Ms(r, FrameTotal(s.queue))
    && (s.log.dropped != [] ==> s.aborted || (s.failed && (s.pump == Ending || s.pump == Stopped)))
    && (s.pump.Cleared? ==> !s.aborted && s.queue != [] && s.queue[0] == s.pump.next)
  }

  ghost predicate Repeats(frames: seq<Frame>) {
    exists i, j :: 0 <= i < j < |frames| && frames[i] == frames[j]
  }

  /** After a late abort the cleared frame has been dropped, and once it left the pump it is
      accounted for twice. */
  ghost predicate Doubled(aborted: bool, pump: Pump, log: Log) {
    && aborted
    && if pump.Cleared? then pump.next in log.dropped else Repeats(log.submitted + log.dropped)
  }

  ghost predicate EndOk(s: State) {
    s.end != NotEnded ==>
      && s.closed && s.pump == Stopped && s.queue == [] && !s.log.late
      && s.log.submitted == s.log.produced && s.log.resampled == Audio(s.log.produced)
      && s.end == if s.log.resampled == [] then Silent else Total(|s.log.resampled|)
  }

  ghost predicate Timed(r: Rendition, s: State)
    requires r.sampleRate >= 1
  {
    PaceOk(r, s.clock, s.pump, s.paceStart, s.pacedMs, s.log.submitted)
  }

  ghost predicate Accounted(r: Rendition, s: State)
    requires r.sampleRate >= 1
  {
    if s.log.late then Doubled(s.aborted, s.pump, s.log) else Exact(r, s)
  }

  ghost predicate Inv(r: Rendition, s: State)
    requires r.sampleRate >= 1
  {
    && Covers(r, s) && InOrder(s.pump, s.log) && RoomOk(r, s) && PumpOk(s) && EndOk(s)
    && Timed(r, s) && Accounted(r, s)
  }

  // ----- what the invariant rests on -----

  lemma {:induction false} AudioLength(frames: seq<Frame>)
    ensures |Audio(frames)| == FrameTotal(frames)
    decreases |frames|
  {
    if frames != [] {
      AudioLength(frames[..|frames| - 1]);
    }
  }

  lemma NumberedOneMore(r: Rendition, frames: seq<Frame>, f: Frame)
    requires Numbered(r, frames) && f.sequence == |frames| && f.timestamp == FrameTotal(frames)
    requires (f.start <==> frames == []) && 0 < Duration(f) <= PacketSamples(r)
    ensures Numbered(r, frames + [f]) && FrameTotal(frames + [f]) == FrameTotal(frames) + Duration(f)
    ensures Audio(frames + [f]) == Audio(frames) + f.samples
  {
    assert (frames + [f])[..|frames|] == frames;
  }

  /** A produced frame is no longer than a packet, and its sequence is its position. */
  lemma {:induction false} MemberIsPacket(r: Rendition, frames: seq<Frame>, k: nat)
    requires Numbered(r, frames) && k < |frames|
    ensures 0 < Duration(frames[k]) <= PacketSamples(r) && frames[k].sequence == k
    decreases |frames|
  {
    if k < |frames| - 1 {
      MemberIsPacket(r, frames[..|frames| - 1], k);
    }
  }

  lemma EmptyQueueHasRoom(r: Rendition, rest: seq<Sample>)
    requires IsRendition(r)
    ensures HasRoom(r, 0.0, rest)
  {
    MsGrows(r, |NextSlice(r, rest)|, PacketSamples(r));
    PacketFitsTheQueue(r);
  }

  // ----- the pump moves -----

  /** The pump goes to another place without taking anything off the queue. */
  lemma MovePump(r: Rendition, s: State, pump: Pump)
    requires IsRendition(r) && Inv(r, s) && s.end == NotEnded && !s.pump.Cleared?
    requires pump == Stopped || pump == AtHead || pump == Ending
    requires s.failed && !s.aborted ==> pump == Stopped || pump == Ending
    requires pump == Stopped ==> !s.writer.Asleep? && (s.queue == [] || s.aborted || s.failed)
    ensures Inv(r, s.(pump := pump))
  {
  }

  lemma WakeKeeps(r: Rendition, s: State)
    requires r.sampleRate >= 1 && Inv(r, s)
    ensures Inv(r, Wake(s))
  {
  }

  lemma FailKeeps(r: Rendition, s: State)
    requires r.sampleRate >= 1 && Inv(r, s) && (s.pump == Ending || s.pump == Stopped)
    ensures Inv(r, FailTransport(s))
  {
  }

  lemma EnsurePumpKeeps(r: Rendition, s: State)
    requires IsRendition(r) && Inv(r, s)
    ensures EnsurePump(s) == s
  {
  }

  lemma EndingIsNotTheEnd(r: Rendition, s: State)
    requires r.sampleRate >= 1 && Inv(r, s) && s.pump != Stopped
    ensures s.end == NotEnded
  {
  }

  lemma GateKeeps(r: Rendition, s: State, gate: Gate)
    requires IsRendition(r) && Inv(r, s) && s.pump == AtHead
    ensures Inv(r, PassGateStep(s, gate))
  {
    EndingIsNotTheEnd(r, s);
    MovePump(r, s, Ending);
    FailKeeps(r, s.(pump := Ending));
    if !s.aborted && s.queue != [] && gate == Writable { PacingKeeps(r, s); }
  }

  lemma PacingKeeps(r: Rendition, s: State)
    requires IsRendition(r) && Inv(r, s) && s.pump == AtHead && s.queue != [] && !s.aborted
    ensures Inv(r, StartPacing(s))
  {
    var t := StartPacing(s);
    MsGrows(r, 0, PacketSamples(r));
    assert PaceOk(r, t.clock, t.pump, t.paceStart, t.pacedMs, t.log.submitted);
  }

  /** The frame a pump is pacing is the next one to submit. */
  lemma HeadIsNext(r: Rendition, s: State)
    requires r.sampleRate >= 1 && Exact(r, s) && !s.aborted && !s.failed && s.queue != []
    ensures |s.log.submitted| < |s.log.produced| && s.log.produced[|s.log.submitted|] == s.queue[0]
  {
  }

  lemma AnswerKeeps(r: Rendition, s: State)
    requires IsRendition(r) && Inv(r, s) && s.pump.Pacing?
    ensures Inv(r, AnswerPaceStep(s))
  {
    EndingIsNotTheEnd(r, s);
    if s.aborted {
      MovePump(r, s, Ending);
    } else if s.pump.dueMs <= s.clock {
      HeadIsNext(r, s);
      assert Inv(r, s.(pump := Cleared(s.pump.next)));
    }
  }

  lemma DrainedKeeps(r: Rendition, s: State, gate: Gate)
    requires IsRendition(r) && Inv(r, s) && s.pump == Pressured
    ensures Inv(r, DrainedStep(s, gate))
  {
    EndingIsNotTheEnd(r, s);
    MovePump(r, s, Ending);
    FailKeeps(r, s.(pump := Ending));
    if gate == Writable && !s.aborted { MovePump(r, s, AtHead); }
  }

  lemma PumpEndedKeeps(r: Rendition, s: State)
    requires IsRendition(r) && Inv(r, s) && s.pump == Ending
    ensures Inv(r, PumpEndedStep(s))
  {
    var woken := Wake(s);
    EndingIsNotTheEnd(r, s);
    WakeKeeps(r, s);
    assert Wake(s.(pump := Stopped)) == woken.(pump := Stopped);
    if s.queue != [] && !s.aborted && !s.failed {
      MovePump(r, woken, AtHead);
    } else {
      MovePump(r, woken, Stopped);
    }
  }

  // ----- a frame leaves the queue -----

  lemma TakeKeepsCounter(r: Rendition, queue: seq<Frame>, queuedMs: real)
    requires r.sampleRate >= 1 && queue != [] && queuedMs == Ms(r, FrameTotal(queue))
    ensures MaxReal(0.0, queuedMs - Ms(r, Duration(queue[0]))) == Ms(r, FrameTotal(queue[1..]))
  {
    SumTail(Duration, queue);
    MsAdds(r, Duration(queue[0]), FrameTotal(queue[1..]));
    MsGrows(r, 0, FrameTotal(queue[1..]));
  }

  /** The head moves from the queue to the submitted or to the dropped frames. */
  lemma HeadMoves(log: Log, queue: seq<Frame>)
    requires Conserved(log, queue) && queue != [] && log.dropped == []
    ensures log.produced == (log.submitted + [queue[0]]) + [] + queue[1..]
    ensures log.produced == log.submitted + ([] + [queue[0]]) + queue[1..]
  {
    assert queue == [queue[0]] + queue[1..];
  }

  lemma SubmitIsExact(r: Rendition, s: State, delivery: Delivery)
    requires IsRendition(r) && Exact(r, s) && s.pump.Cleared? && !s.failed
    ensures Exact(r, SubmitStep(r, s, delivery))
  {
    assert s.log.dropped == [];
    HeadMoves(s.log, s.queue);
    TakeKeepsCounter(r, s.queue, s.queuedMs);
  }

  lemma SubmitDoubles(r: Rendition, s: State, delivery: Delivery)
    requires r.sampleRate >= 1 && s.pump.Cleared? && Doubled(s.aborted, s.pump, s.log)
    ensures var t := SubmitStep(r, s, delivery); Doubled(t.aborted, t.pump, t.log)
  {
    var t := SubmitStep(r, s, delivery);
    var next := s.pump.next;
    if delivery == Lost {
      DroppedTwice(s.log.submitted, s.log.dropped, next);
    } else {
      SentAndDropped(s.log.submitted, s.log.dropped, next);
    }
  }

  lemma DroppedTwice(submitted: seq<Frame>, dropped: seq<Frame>, next: Frame)
    requires next in dropped
    ensures Repeats(submitted + (dropped + [next]))
  {
    var k :| 0 <= k < |dropped| && dropped[k] == next;
    var all := submitted + (dropped + [next]);
    assert all[|submitted| + k] == next && all[|submitted| + |dropped|] == next;
  }

  lemma SentAndDropped(submitted: seq<Frame>, dropped: seq<Frame>, next: Frame)
    requires next in dropped
    ensures Repeats(submitted + [next] + dropped)
  {
    var k :| 0 <= k < |dropped| && dropped[k] == next;
    var all := submitted + [next] + dropped;
    assert all[|submitted|] == next && all[|submitted| + 1 + k] == next;
  }

  lemma SubmitKeepsPace(r: Rendition, clock: real, pump: Pump, paceStart: Option<real>, pacedMs: real,
                        submitted: seq<Frame>)
    requires IsRendition(r) && PaceOk(r, clock, pump, paceStart, pacedMs, submitted)
    requires pump.Cleared? && Duration(pump.next) <= PacketSamples(r)
    ensures PaceOk(r, clock, AtHead, paceStart, pacedMs + Ms(r, Duration(pump.next)), submitted + [pump.next])
  {
    SumAppend(Duration, submitted, pump.next);
    MsAdds(r, FrameTotal(submitted), Duration(pump.next));
    MsGrows(r, Duration(pump.next), PacketSamples(r));
  }

  lemma SubmitKeepsRoom(r: Rendition, s: State, delivery: Delivery)
    requires IsRendition(r) && RoomOk(r, s) && s.pump.Cleared?
    ensures RoomOk(r, SubmitStep(r, s, delivery))
  {
    MsGrows(r, 0, Duration(s.pump.next));
  }

  lemma SubmitKeepsCovers(r: Rendition, s: State, delivery: Delivery)
    requires IsRendition(r) && Covers(r, s) && s.pump.Cleared?
    ensures Covers(r, SubmitStep(r, s, delivery))
  {
    var t := HeadTaken(r, s, s.pump.next);
    TakenKeepsCovers(r, s, s.pump.next);
    if delivery == Lost {
      LostKeepsCovers(r, t, s.pump.next);
    } else {
      assert FrameSent(r, t, s.pump.next, delivery == SentUnderPressure).log.produced == t.log.produced;
    }
  }

  lemma TakenKeepsCovers(r: Rendition, s: State, next: Frame)
    requires IsRendition(r) && Covers(r, s)
    ensures Covers(r, HeadTaken(r, s, next))
  {
  }

  lemma LostKeepsCovers(r: Rendition, s: State, next: Frame)
    requires IsRendition(r) && Covers(r, s)
    ensures Covers(r, FrameLost(s, next))
  {
  }

  lemma SubmitKeepsOrder(r: Rendition, s: State, delivery: Delivery)
    requires IsRendition(r) && InOrder(s.pump, s.log) && s.pump.Cleared?
    ensures var t := SubmitStep(r, s, delivery); InOrder(t.pump, t.log)
  {
    var t := SubmitStep(r, s, delivery);
    if delivery != Lost {
      assert t.log.submitted == s.log.submitted + [s.pump.next] && t.log.produced == s.log.produced;
      OneMoreInOrder(s.log.submitted, s.log.produced);
    }
  }

  lemma OneMoreInOrder(submitted: seq<Frame>, produced: seq<Frame>)
    requires submitted <= produced && |submitted| < |produced|
    ensures submitted + [produced[|submitted|]] <= produced
  {
  }

  lemma SubmitKeepsPump(r: Rendition, s: State, delivery: Delivery)
    requires IsRendition(r) && PumpOk(s) && EndOk(s) && s.pump.Cleared?
    ensures PumpOk(SubmitStep(r, s, delivery)) && EndOk(SubmitStep(r, s, delivery))
  {
  }

  lemma SubmitKeeps(r: Rendition, s: State, delivery: Delivery)
    requires IsRendition(r) && Inv(r, s) && s.pump.Cleared?
    ensures Inv(r, SubmitStep(r, s, delivery))
  {
    SubmitKeepsCovers(r, s, delivery);
    SubmitKeepsOrder(r, s, delivery);
    SubmitKeepsPump(r, s, delivery);
    SubmitKeepsRoom(r, s, delivery);
    SubmitStaysPaced(r, s, delivery);
    SubmitKeepsAccounts(r, s, delivery);
    Together(r, SubmitStep(r, s, delivery));
  }

  lemma SubmitKeepsAccounts(r: Rendition, s: State, delivery: Delivery)
    requires IsRendition(r) && Inv(r, s) && s.pump.Cleared?
    ensures Accounted(r, SubmitStep(r, s, delivery))
  {
    if s.log.late {
      SubmitDoubles(r, s, delivery);
    } else {
      SubmitIsExact(r, s, delivery);
    }
  }

  lemma SubmitStaysPaced(r: Rendition, s: State, delivery: Delivery)
    requires IsRendition(r) && Covers(r, s) && InOrder(s.pump, s.log) && s.pump.Cleared? && Timed(r, s)
    ensures Timed(r, SubmitStep(r, s, delivery))
  {
    var t := HeadTaken(r, s, s.pump.next);
    MemberIsPacket(r, s.log.produced, |s.log.submitted|);
    SubmitKeepsPace(r, s.clock, s.pump, s.paceStart, s.pacedMs, s.log.submitted);
    assert Timed(r, t);
    if delivery == Lost { LostStaysPaced(r, t, s.pump.next); }
  }

  lemma LostStaysPaced(r: Rendition, s: State, next: Frame)
    requires IsRendition(r) && Timed(r, s) && s.pump == Cleared(next)
    ensures Timed(r, FrameLost(s, next))
  {
  }

  lemma Together(r: Rendition, s: State)
    requires r.sampleRate >= 1
    requires Covers(r, s) && InOrder(s.pump, s.log) && RoomOk(r, s) && PumpOk(s) && EndOk(s) && Timed(r, s)
      && Accounted(r, s)
    ensures Inv(r, s)
  {
  }

  lemma AbortKeeps(r: Rendition, s: State)
    requires IsRendition(r) && Inv(r, s) && !s.aborted
    ensures Inv(r, AbortStep(s))
  {
    var t := AbortStep(s);
    EmptyQueueHasRoom(r, Rest(s.writer));
    assert s.log.submitted + s.log.dropped + s.queue == s.log.submitted + (s.log.dropped + s.queue) + [];
    if s.pump.Cleared? { assert t.log.dropped[|s.log.dropped|] == s.pump.next; }
  }

  // ----- the writer and the end -----

  lemma WriteKeeps(r: Rendition, s: State, output: seq<Sample>)
    requires IsRendition(r) && Inv(r, s)
    ensures Inv(r, WriteStep(s, output))
  {
  }

  lemma AskRoomKeeps(r: Rendition, s: State)
    requires IsRendition(r) && Inv(r, s) && s.writer.AwaitingRoom?
    ensures Inv(r, AskRoomStep(r, s))
  {
    if s.aborted || s.failed || HasRoom(r, s.queuedMs, s.writer.rest) {
      AdmissionKeeps(r, s);
    } else {
      EmptyQueueHasRoom(r, s.writer.rest);
      SleepKeeps(r, s);
    }
  }

  lemma AdmissionKeeps(r: Rendition, s: State)
    requires IsRendition(r) && Inv(r, s) && s.writer.AwaitingRoom?
    ensures s.aborted || s.failed ==> Inv(r, s.(writer := NotWriting))
    ensures !s.aborted && !s.failed && HasRoom(r, s.queuedMs, s.writer.rest) ==>
      Inv(r, s.(writer := Admitted(s.writer.rest)))
  {
  }

  lemma SleepKeeps(r: Rendition, s: State)
    requires IsRendition(r) && Inv(r, s) && s.writer.AwaitingRoom? && !s.aborted && !s.failed
    requires !HasRoom(r, s.queuedMs, s.writer.rest) && HasRoom(r, 0.0, s.writer.rest)
    ensures Inv(r, EnsurePump(s).(writer := Asleep(s.writer.rest)))
  {
    assert s.queue != [];
  }

  lemma PushKeepsCovers(r: Rendition, s: State)
    requires IsRendition(r) && Covers(r, s) && s.writer.Admitted?
    ensures Covers(r, Pushed(r, s))
  {
    var f, t := PushedFrame(r, s), Pushed(r, s);
    NumberedOneMore(r, s.log.produced, f);
    assert s.writer.rest == f.samples + Rest(t.writer);
    assert Audio(s.log.produced) + s.writer.rest == Audio(t.log.produced) + Rest(t.writer);
  }

  lemma PushKeepsRoom(r: Rendition, s: State)
    requires IsRendition(r) && RoomOk(r, s) && s.writer.Admitted?
    ensures RoomOk(r, Pushed(r, s))
  {
    MsGrows(r, 0, |NextSlice(r, s.writer.rest)|);
  }

  lemma PushIsExact(r: Rendition, s: State)
    requires IsRendition(r) && Exact(r, s) && s.writer.Admitted?
    ensures Exact(r, Pushed(r, s))
  {
    var f := PushedFrame(r, s);
    SumAppend(Duration, s.queue, f);
    MsAdds(r, FrameTotal(s.queue), Duration(f));
  }

  lemma PushKeeps(r: Rendition, s: State)
    requires IsRendition(r) && Inv(r, s) && s.writer.Admitted?
    ensures Inv(r, PushStep(r, s))
  {
    PushKeepsCovers(r, s);
    PushKeepsRoom(r, s);
    if !s.log.late { PushIsExact(r, s); }
    RestartKeeps(r, Pushed(r, s));
  }

  /** Everything but the pump's running is in order, and the pump is made to run. */
  lemma RestartKeeps(r: Rendition, s: State)
    requires IsRendition(r) && Covers(r, s) && InOrder(s.pump, s.log) && RoomOk(r, s) && s.end == NotEnded
    requires Timed(r, s) && Accounted(r, s)
    requires PumpOk(s.(queue := if s.pump == Stopped then [] else s.queue))
    ensures Inv(r, EnsurePump(s))
  {
  }

  lemma CloseKeeps(r: Rendition, s: State)
    requires IsRendition(r) && Inv(r, s) && s.writer == NotWriting
    ensures Inv(r, EnsurePump(s.(closed := true)))
  {
    EnsurePumpKeeps(r, s);
  }

  lemma CloseDoneKeeps(r: Rendition, s: State, gate: Gate)
    requires IsRendition(r) && Inv(r, s)
    ensures Inv(r, CloseDoneStep(s, gate))
  {
    AudioLength(s.log.produced);
    if gate == Broken && s.pump == Stopped { FailKeeps(r, s); }
  }

  lemma TickKeeps(r: Rendition, s: State, now: real)
    requires IsRendition(r) && Inv(r, s)
    ensures Inv(r, Step(r, s, Tick(now)))
  {
  }

  /** Every segment keeps the invariant, an abort at any moment included. */
  lemma StepKeeps(r: Rendition, s: State, e: Event)
    requires IsRendition(r) && Inv(r, s)
    ensures Inv(r, Step(r, s, e))
  {
    match e
    case Tick(now) => TickKeeps(r, s, now);
    case WriteCall(output) => WriteKeeps(r, s, output);
    case AskRoom => if s.writer.AwaitingRoom? { AskRoomKeeps(r, s); }
    case Push => if s.writer.Admitted? { PushKeeps(r, s); }
    case PassGate(gate) => if s.pump == AtHead { GateKeeps(r, s, gate); }
    case AnswerPace => if s.pump.Pacing? { AnswerKeeps(r, s); }
    case Submit(delivery) => if s.pump.Cleared? { SubmitKeeps(r, s, delivery); }
    case Drained(gate) => if s.pump == Pressured { DrainedKeeps(r, s, gate); }
    case PumpEnded => if s.pump == Ending { PumpEndedKeeps(r, s); }
    case Abort => if !s.aborted { AbortKeeps(r, s); }
    case CloseCall => if s.writer == NotWriting { CloseKeeps(r, s); }
    case CloseDone(gate) => CloseDoneKeeps(r, s, gate);
  }

  // ----- whole runs -----

  lemma {:induction false} RunKeeps(r: Rendition, events: seq<Event>)
    requires IsRendition(r)
    ensures Inv(r, Run(r, events))
    decreases |events|
  {
    if events != [] {
      RunKeeps(r, events[..|events| - 1]);
      StepKeeps(r, Run(r, events[..|events| - 1]), events[|events| - 1]);
    }
  }

  lemma {:induction false} NumberedAt(r: Rendition, frames: seq<Frame>, k: nat)
    requires Numbered(r, frames) && k < |frames|
    ensures frames[k].sequence == k && frames[k].timestamp == FrameTotal(frames[..k]) && (frames[k].start <==> k == 0)
    decreases |frames|
  {
    var n := |frames| - 1;
    if k < n {
      NumberedAt(r, frames[..n], k);
      assert frames[..n][..k] == frames[..k];
    }
  }

  /** Exact cover: the frames carry sequences 0, 1, 2, ..., each timestamp is the total before
      it, only frame 0 starts, and while nothing went wrong their audio is the resampled stream. */
  lemma ExactCover(r: Rendition, events: seq<Event>, k: nat)
    requires IsRendition(r) && k < |Run(r, events).log.produced|
    ensures var frames := Run(r, events).log.produced;
      frames[k].sequence == k && frames[k].timestamp == FrameTotal(frames[..k]) && (frames[k].start <==> k == 0)
    ensures var s := Run(r, events);
      && (!s.aborted && !s.failed ==> s.log.resampled == Audio(s.log.produced) + Rest(s.writer))
      && Audio(s.log.produced) <= s.log.resampled
  {
    RunKeeps(r, events);
    NumberedAt(r, Run(r, events).log.produced, k);
  }

  /** In every run the submitted frames are the first of the produced ones, in order. */
  lemma NothingReordered(r: Rendition, events: seq<Event>)
    requires IsRendition(r)
    ensures Run(r, events).log.submitted <= Run(r, events).log.produced
  {
    RunKeeps(r, events);
  }

  /** Audio submitted never runs ahead of the clock by more than the burst and one packet. */
  lemma Paced(r: Rendition, events: seq<Event>)
    requires IsRendition(r) && Run(r, events).paceStart.Some?
    ensures var s := Run(r, events);
      Ms(r, FrameTotal(s.log.submitted)) <= s.clock - s.paceStart.value + 200.0 + Ms(r, PacketSamples(r))
  {
    RunKeeps(r, events);
  }

  /** The queue's counter never exceeds a second and the code's slack. */
  lemma QueueBounded(r: Rendition, events: seq<Event>)
    requires IsRendition(r)
    ensures 0.0 <= Run(r, events).queuedMs <= 1000.001
  {
    RunKeeps(r, events);
  }

  /** A sleeping writer sleeps for want of room, over a queue that is not empty and a pump that
      runs; a writer that looks at an empty queue is admitted. */
  lemma WriterNotWedged(r: Rendition, events: seq<Event>)
    requires IsRendition(r)
    ensures var s := Run(r, events);
      && (s.writer.Asleep? ==>
            !HasRoom(r, s.queuedMs, s.writer.rest) && !s.aborted && !s.failed && s.pump != Stopped && s.queue != [])
      && (s.writer.AwaitingRoom? && s.queue == [] && !s.aborted && !s.failed ==> AskRoomStep(r, s).writer.Admitted?)
  {
    RunKeeps(r, events);
    EmptyQueueHasRoom(r, Rest(Run(r, events).writer));
  }

  lemma RunOn(r: Rendition, events: seq<Event>, e: Event)
    requires r.sampleRate >= 1
    ensures Run(r, events + [e]) == Step(r, Run(r, events), e)
  {
    assert (events + [e])[..|events|] == events;
  }

  /** How many more waits the pump has to get through before it wakes the writer. */
  function Waits(pump: Pump): nat {
    match pump
    case Pressured => 3
    case AtHead => 2
    case Pacing(_, _) => 1
    case _ => 0
  }

  /** What the pump does next, over a queue that is not empty and with nothing gone wrong. */
  lemma PumpGetsOn(r: Rendition, s: State)
    requires r.sampleRate >= 1 && s.writer.Asleep? && s.queue != [] && !s.aborted && !s.failed
    ensures s.pump == Pressured ==> Step(r, s, Drained(Writable)) == s.(pump := AtHead)
    ensures s.pump == AtHead ==> var t := Step(r, s, PassGate(Writable)); t.pump.Pacing? && t.writer == s.writer
    ensures s.pump.Pacing? ==>
      Step(r, Step(r, s, Tick(MaxReal(s.clock, s.pump.dueMs))), AnswerPace)
        == s.(clock := MaxReal(s.clock, s.pump.dueMs), pump := Cleared(s.pump.next))
    ensures s.pump.Cleared? ==> Step(r, s, Submit(Sent)).writer == AwaitingRoom(s.writer.rest)
    ensures s.pump == Ending ==> Step(r, s, PumpEnded).writer == AwaitingRoom(s.writer.rest)
  {
  }

  /** A sleeping writer is never stuck: when the socket drains and time passes, the pump comes
      round to waking it. */
  lemma {:induction false} SleeperIsWoken(r: Rendition, events: seq<Event>) returns (more: seq<Event>)
    requires IsRendition(r) && Run(r, events).writer.Asleep?
    ensures events <= more && Run(r, more).writer == AwaitingRoom(Run(r, events).writer.rest)
    decreases Waits(Run(r, events).pump)
  {
    var s := Run(r, events);
    WriterNotWedged(r, events);
    PumpGetsOn(r, s);
    match s.pump
    case Pressured =>
      RunOn(r, events, Drained(Writable));
      more := SleeperIsWoken(r, events + [Drained(Writable)]);
    case AtHead =>
      RunOn(r, events, PassGate(Writable));
      more := SleeperIsWoken(r, events + [PassGate(Writable)]);
    case Pacing(_, dueMs) =>
      var later := Tick(MaxReal(s.clock, dueMs));
      RunOn(r, events, later);
      RunOn(r, events + [later], AnswerPace);
      more := SleeperIsWoken(r, events + [later] + [AnswerPace]);
    case Cleared(_) =>
      RunOn(r, events, Submit(Sent));
      more := events + [Submit(Sent)];
    case Ending =>
      RunOn(r, events, PumpEnded);
      more := events + [PumpEnded];
  }

  /** A rendition that ended reports the duration of all its audio, or nothing if it had none, and
      everything was submitted. */
  lemma EndTotalsEverything(r: Rendition, events: seq<Event>)
    requires IsRendition(r) && Run(r, events).end != NotEnded
    ensures var s := Run(r, events);
      && s.log.submitted == s.log.produced && s.log.resampled == Audio(s.log.submitted)
      && s.end == if s.log.resampled == [] then Silent else Total(|s.log.resampled|)
  {
    RunKeeps(r, events);
  }

  // ----- the abort in the gap -----

  /** An abort between a pace answer and its submission. */
  predicate LateAbort(s: State, e: Event) {
    e.Abort? && !s.aborted && s.pump.Cleared?
  }

  ghost predicate Timely(r: Rendition, events: seq<Event>)
    requires r.sampleRate >= 1
  {
    events != [] ==>
      var before := events[..|events| - 1];
      Timely(r, before) && !LateAbort(Run(r, before), events[|events| - 1])
  }

  lemma LateIsLateAbort(r: Rendition, s: State, e: Event)
    requires r.sampleRate >= 1 && Inv(r, s)
    ensures Step(r, s, e).log.late <==> s.log.late || LateAbort(s, e)
  {
  }

  lemma {:induction false} TimelyIsNotLate(r: Rendition, events: seq<Event>)
    requires IsRendition(r)
    ensures Timely(r, events) <==> !Run(r, events).log.late
    decreases |events|
  {
    if events != [] {
      var before := events[..|events| - 1];
      TimelyIsNotLate(r, before);
      RunKeeps(r, before);
      LateIsLateAbort(r, Run(r, before), events[|events| - 1]);
    }
  }

  lemma ProducedDoNotRepeat(r: Rendition, frames: seq<Frame>)
    requires Numbered(r, frames)
    ensures !Repeats(frames)
  {
    if Repeats(frames) {
      var i, j :| 0 <= i < j < |frames| && frames[i] == frames[j];
      MemberIsPacket(r, frames, i);
      MemberIsPacket(r, frames, j);
      assert false;
    }
  }

  lemma RepeatsSpread(xs: seq<Frame>, ys: seq<Frame>)
    requires Repeats(xs)
    ensures Repeats(xs + ys)
  {
    var i, j :| 0 <= i < j < |xs| && xs[i] == xs[j];
    assert (xs + ys)[i] == (xs + ys)[j];
  }

  /** Produced frames are those submitted, then those dropped, then those queued, each once: at
      every moment but the gap itself this holds if and only if no abort fell into the gap. */
  lemma EveryFrameOnceIff(r: Rendition, events: seq<Event>)
    requires IsRendition(r) && !Run(r, events).pump.Cleared?
    ensures var s := Run(r, events);
      s.log.produced == s.log.submitted + s.log.dropped + s.queue <==> Timely(r, events)
  {
    var s := Run(r, events);
    RunKeeps(r, events);
    TimelyIsNotLate(r, events);
    if s.log.late {
      RepeatsSpread(s.log.submitted + s.log.dropped, s.queue);
      ProducedDoNotRepeat(r, s.log.produced);
    }
  }

  /** And then the counter is exactly the sum over the queue. */
  lemma CounterIsTheSum(r: Rendition, events: seq<Event>)
    requires IsRendition(r) && Timely(r, events)
    ensures Run(r, events).queuedMs == Ms(r, FrameTotal(Run(r, events).queue))
  {
    RunKeeps(r, events);
    TimelyIsNotLate(r, events);
  }

  /** What such an abort does at once: the frame is dropped and then submitted all the same, so it
      is counted twice; an abort keeps the count exactly when it is not in the gap. */
  lemma LateAbortCountsTwice(r: Rendition, s: State, delivery: Delivery)
    requires IsRendition(r) && Inv(r, s) && !s.aborted
    ensures var t := SubmitStep(r, AbortStep(s), delivery);
      |t.log.submitted| + |t.log.dropped| + |t.queue| == |t.log.produced| <==> !s.pump.Cleared?
  {
    assert |s.log.produced| == |s.log.submitted| + |s.log.dropped| + |s.queue|;
  }
}
