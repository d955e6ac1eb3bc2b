/** The microphone's frame queue (`FrameQueue`, apps/realtime-gateway/src/session.ts:229-274):
    timestamps derived from the sample count, a bounded buffer and one sleeping consumer. */
module InputFrames {
  import opened Prelude

  type Sample = real

  const SAMPLES_PER_MS := 16.0
  const MAX_LAG_MS := 1000.0
  /** Thirty seconds at 16 kHz. */
  const MAX_BUFFERED_SAMPLES := 480000

  datatype Frame = Frame(samples: seq<Sample>, timestampMs: real)

  function Size(f: Frame): nat {
    |f.samples|
  }

  function DurationMs(samples: nat): real {
    samples as real / SAMPLES_PER_MS
  }

  function EndMs(f: Frame): real {
    f.timestampMs + DurationMs(Size(f))
  }

  /** The consumer of the iterator: away with a frame, asleep on the promise, or finished. */
  datatype Consumer = Away | Asleep | Woken | Finished

  /** `pushed` and `left` log every frame that came in and every frame that went out, by being
      yielded or by being dropped. */
  datatype State = State(
    buffer: seq<Frame>, bufferedSamples: nat, ended: bool, anchorMs: Option<real>, consumedSamples: nat,
    consumer: Consumer, pushed: seq<Frame>, left: seq<Frame>)

  function Initial(): State {
    State([], 0, false, None, 0, Away, [], [])
  }

  datatype Event = Push(samples: seq<Sample>, nowMs: real) | End | Pull

  function Samples(frames: seq<Frame>): nat {
    if frames == [] then 0 else |frames[0].samples| + Samples(frames[1..])
  }

  lemma {:induction false} SamplesAppend(frames: seq<Frame>, f: Frame)
    ensures Samples(frames + [f]) == Samples(frames) + |f.samples|
    decreases |frames|
  {
    if frames == [] {
      assert frames + [f] == [f];
    } else {
      SamplesAppend(frames[1..], f);
      assert (frames + [f])[1..] == frames[1..] + [f];
    }
  }

  /** How many of the oldest frames must go before the rest fits. */
  function Excess(frames: seq<Frame>): (n: nat)
    ensures n <= |frames|
  {
    if Samples(frames) <= MAX_BUFFERED_SAMPLES then 0 else 1 + Excess(frames[1..])
  }

  /** What stays fits, and with one frame more it would not. */
  lemma {:induction false} ExcessIsLeast(frames: seq<Frame>)
    ensures Samples(frames[Excess(frames)..]) <= MAX_BUFFERED_SAMPLES
    ensures Excess(frames) > 0 ==> Samples(frames[Excess(frames) - 1..]) > MAX_BUFFERED_SAMPLES
    decreases |frames|
  {
    var n := Excess(frames);
    if n == 0 {
      assert frames[0..] == frames;
    } else {
      ExcessIsLeast(frames[1..]);
      assert frames[1..][n - 1..] == frames[n..];
      if n == 1 {
        assert frames[0..] == frames;
      } else {
        assert frames[1..][n - 2..] == frames[n - 1..];
      }
    }
  }

  /** Where the sample count puts the next frame. */
  function Nominal(s: State, nowMs: real): real {
    (if s.anchorMs.Some? then s.anchorMs.value else nowMs) + DurationMs(s.consumedSamples)
  }

  function Stamp(s: State, nowMs: real): real {
    if nowMs - Nominal(s, nowMs) > MAX_LAG_MS then nowMs else Nominal(s, nowMs)
  }

  function Append(s: State, samples: seq<Sample>, nowMs: real): State {
    var frame := Frame(samples, Stamp(s, nowMs));
    s.(anchorMs := Some(Stamp(s, nowMs) - DurationMs(s.consumedSamples)),
       consumedSamples := s.consumedSamples + |samples|,
       buffer := s.buffer + [frame],
       bufferedSamples := s.bufferedSamples + |samples|,
       pushed := s.pushed + [frame])
  }

  function Trimmed(s: State): State {
    var n := Excess(s.buffer);
    s.(buffer := s.buffer[n..], bufferedSamples := Samples(s.buffer[n..]), left := s.left + s.buffer[..n])
  }

  function Wake(s: State): State {
    s.(consumer := if s.consumer.Asleep? then Woken else s.consumer)
  }

  function Take(s: State): State
    requires s.buffer != []
  {
    s.(buffer := s.buffer[1..],
       bufferedSamples := Samples(s.buffer[1..]),
       consumer := Away,
       left := s.left + [s.buffer[0]])
  }

  function Step(s: State, e: Event): State {
    match e
    case Push(samples, nowMs) =>
      if s.ended || samples == [] then s else Wake(Trimmed(Append(s, samples, nowMs)))
    case End => Wake(s.(ended := true))
    case Pull =>
      if s.consumer.Asleep? || s.consumer.Finished? then s
      else if s.buffer != [] then Take(s)
      else s.(consumer := if s.ended then Finished else Asleep)
  }

  function Run(events: seq<Event>): State {
    if events == [] then Initial() else Step(Run(events[..|events| - 1]), events[|events| - 1])
  }

  // ----- what every step keeps -----

  /** Frames follow each other without overlap; a break is longer than the allowed lag. */
  predicate Contiguous(frames: seq<Frame>) {
    |frames| < 2 ||
      var before, f := frames[|frames| - 2], frames[|frames| - 1];
      && Contiguous(frames[..|frames| - 1])
      && (f.timestampMs == EndMs(before) || f.timestampMs > EndMs(before) + MAX_LAG_MS)
  }

  ghost predicate Inv(s: State) {
    && s.bufferedSamples == Samples(s.buffer) <= MAX_BUFFERED_SAMPLES
    && s.pushed == s.left + s.buffer
    && (s.anchorMs.None? <==> s.pushed == [])
    && (s.pushed == [] ==> s.consumedSamples == 0)
    && (s.pushed != [] ==> s.anchorMs.value + DurationMs(s.consumedSamples) == EndMs(s.pushed[|s.pushed| - 1]))
    && Contiguous(s.pushed)
    && (s.consumer.Asleep? ==> s.buffer == [] && !s.ended)
    && (s.consumer.Finished? ==> s.buffer == [] && s.ended)
  }

  lemma AppendStamps(s: State, samples: seq<Sample>, nowMs: real)
    requires Inv(s)
    ensures var t := Append(s, samples, nowMs);
      && Contiguous(t.pushed) && t.pushed == t.left + t.buffer
      && t.anchorMs.value + DurationMs(t.consumedSamples) == EndMs(t.pushed[|t.pushed| - 1])
  {
    var t := Append(s, samples, nowMs);
    assert t.pushed[..|t.pushed| - 1] == s.pushed;
    assert DurationMs(t.consumedSamples) == DurationMs(s.consumedSamples) + DurationMs(|samples|);
  }

  lemma TrimmedKeeps(s: State)
    requires s.pushed == s.left + s.buffer
    ensures var t := Trimmed(s);
      && t.bufferedSamples == Samples(t.buffer) <= MAX_BUFFERED_SAMPLES && t.pushed == t.left + t.buffer
  {
    ExcessIsLeast(s.buffer);
    MoveAcross(s.left, s.buffer, Excess(s.buffer));
  }

  lemma MoveAcross<T>(xs: seq<T>, ys: seq<T>, n: nat)
    requires n <= |ys|
    ensures (xs + ys[..n]) + ys[n..] == xs + ys
  {
  }

  lemma DropSplits<T>(xs: seq<T>, ys: seq<T>, n: nat)
    requires n <= |ys|
    ensures (xs + ys)[|xs| + n..] == ys[n..]
  {
  }

  /** What leaves is oldest, and the last to leave did not fit. */
  lemma TrimmedIsNewest(s: State)
    requires s.pushed == s.left + s.buffer
    ensures var t := Trimmed(s);
      && s.left <= t.left
      && (|t.left| > |s.left| ==> Samples(s.pushed[|t.left| - 1..]) > MAX_BUFFERED_SAMPLES)
  {
    var n := Excess(s.buffer);
    if n > 0 {
      ExcessIsLeast(s.buffer);
      DropSplits(s.left, s.buffer, n - 1);
    }
  }

  lemma PushKeeps(s: State, samples: seq<Sample>, nowMs: real)
    requires Inv(s)
    ensures Inv(Step(s, Push(samples, nowMs)))
  {
    AppendStamps(s, samples, nowMs);
    TrimmedKeeps(Append(s, samples, nowMs));
  }

  lemma TakeKeeps(s: State)
    requires Inv(s) && s.buffer != []
    ensures Inv(Take(s))
  {
    assert s.buffer[..1] == [s.buffer[0]];
    MoveAcross(s.left, s.buffer, 1);
  }

  lemma StepKeeps(s: State, e: Event)
    requires Inv(s)
    ensures Inv(Step(s, e))
  {
    match e
    case Push(samples, nowMs) => PushKeeps(s, samples, nowMs);
    case End =>
    case Pull => if s.buffer != [] { TakeKeeps(s); }
  }

  lemma {:induction false} RunKeeps(events: seq<Event>)
    ensures Inv(Run(events))
    decreases |events|
  {
    if events != [] {
      RunKeeps(events[..|events| - 1]);
      StepKeeps(Run(events[..|events| - 1]), events[|events| - 1]);
    }
  }

  lemma {:induction false} LaterFramesStartLater(frames: seq<Frame>, i: nat, j: nat)
    requires Contiguous(frames) && i < j < |frames|
    ensures EndMs(frames[i]) <= frames[j].timestampMs
    decreases |frames|
  {
    if j < |frames| - 1 {
      LaterFramesStartLater(frames[..|frames| - 1], i, j);
    } else if i < j - 1 {
      LaterFramesStartLater(frames[..|frames| - 1], i, j - 1);
    }
  }

  /** In every run and under any clock, even one that goes back, no two frames overlap. */
  lemma FramesNeverOverlap(events: seq<Event>, i: nat, j: nat)
    requires i < j < |Run(events).pushed|
    ensures var early, late := Run(events).pushed[i], Run(events).pushed[j];
      early.timestampMs + |early.samples| as real * 1000.0 / 16000.0 <= late.timestampMs
  {
    RunKeeps(events);
    LaterFramesStartLater(Run(events).pushed, i, j);
  }

  /** A frame is stamped no more than the allowed lag before its arrival, with the arrival itself
      exactly when the sample count has fallen further behind, and else right where the last
      frame ended. */
  lemma StampFollowsArrival(events: seq<Event>, samples: seq<Sample>, nowMs: real)
    requires samples != [] && !Run(events).ended
    ensures var s, t := Run(events), Step(Run(events), Push(samples, nowMs));
      && |t.pushed| == |s.pushed| + 1 && t.pushed[|s.pushed|].samples == samples
      && var at := t.pushed[|s.pushed|].timestampMs;
         && nowMs - at <= 1000.0
         && (s.pushed == [] ==> at == nowMs)
         && (s.pushed != [] ==>
               var last := s.pushed[|s.pushed| - 1];
               var end := last.timestampMs + |last.samples| as real * 1000.0 / 16000.0;
               at == if nowMs - end > 1000.0 then nowMs else end)
  {
    RunKeeps(events);
  }

  lemma PushIsNewest(s: State, samples: seq<Sample>, nowMs: real)
    requires Inv(s) && samples != [] && !s.ended
    ensures var t := Step(s, Push(samples, nowMs));
      && t.pushed == t.left + t.buffer && s.left <= t.left
      && t.bufferedSamples == Samples(t.buffer) <= MAX_BUFFERED_SAMPLES
      && (|t.left| > |s.left| ==> Samples(t.pushed[|t.left| - 1..]) > MAX_BUFFERED_SAMPLES)
  {
    var appended := Append(s, samples, nowMs);
    AppendStamps(s, samples, nowMs);
    TrimmedKeeps(appended);
    TrimmedIsNewest(appended);
    assert Step(s, Push(samples, nowMs)) == Wake(Trimmed(appended));
  }

  /** Every frame leaves once and in order; the buffer is what has not left yet, never more than
      thirty seconds, and a push drops no frame that would still have fitted. */
  lemma BufferIsTheNewest(events: seq<Event>, samples: seq<Sample>, nowMs: real)
    requires samples != [] && !Run(events).ended
    ensures var s, t := Run(events), Step(Run(events), Push(samples, nowMs));
      && t.pushed == t.left + t.buffer && s.left <= t.left
      && t.bufferedSamples == Samples(t.buffer) <= 30 * 16000
      && (|t.left| > |s.left| ==> Samples(t.pushed[|t.left| - 1..]) > 30 * 16000)
  {
    hide Step, Run, Inv;
    RunKeeps(events);
    PushIsNewest(Run(events), samples, nowMs);
  }

  /** The consumer sleeps only when there is nothing to take, every push and the end wake it, and
      once it has finished nothing was left behind. */
  lemma NoLostWakeup(events: seq<Event>)
    ensures var s := Run(events);
      && (s.consumer.Asleep? ==> s.buffer == [] && !s.ended && s.pushed == s.left)
      && (s.consumer.Finished? ==> s.ended && s.pushed == s.left)
      && (forall e: Event :: !(e.Pull? || (e.Push? && e.samples == [])) ==> !Step(s, e).consumer.Asleep?)
  {
    RunKeeps(events);
    var s := Run(events);
    if s.buffer == [] { assert s.left + s.buffer == s.left; }
  }

  // ----- the queue as the gateway runs it -----

  class FrameQueue {
    var buffer: seq<Frame>
    var bufferedSamples: nat
    var ended: bool
    var anchorMs: Option<real>
    var consumedSamples: nat
    var consumer: Consumer
    ghost var pushed: seq<Frame>
    ghost var left: seq<Frame>

    ghost function Now(): State
      reads this
    {
      State(buffer, bufferedSamples, ended, anchorMs, consumedSamples, consumer, pushed, left)
    }

    /** The running count is the count of what is buffered. */
    ghost predicate Valid()
      reads this
    {
      bufferedSamples == Samples(buffer)
    }

    constructor ()
      ensures Valid() && Now() == Initial()
    {
      buffer, bufferedSamples, ended, anchorMs, consumedSamples, consumer := [], 0, false, None, 0, Away;
      pushed, left := [], [];
    }

    /** The next frame's timestamp, re-anchored when it has fallen too far behind. */
    method NextTimestamp(nowMs: real) returns (timestampMs: real)
      modifies this`anchorMs
      ensures timestampMs == Stamp(old(Now()), nowMs)
      ensures Now() == old(Now()).(anchorMs := Some(Stamp(old(Now()), nowMs) - DurationMs(consumedSamples)))
    {
      if anchorMs == None { anchorMs := Some(nowMs); }
      timestampMs := anchorMs.value + consumedSamples as real / SAMPLES_PER_MS;
      if nowMs - timestampMs > MAX_LAG_MS {
        anchorMs := Some(anchorMs.value + (nowMs - timestampMs));
        timestampMs := nowMs;
      }
    }

    method AppendFrame(samples: seq<Sample>, nowMs: real)
      requires Valid()
      modifies this
      ensures Valid() && Now() == Append(old(Now()), samples, nowMs)
    {
      var timestampMs := NextTimestamp(nowMs);
      consumedSamples := consumedSamples + |samples|;
      var frame := Frame(samples, timestampMs);
      SamplesAppend(buffer, frame);
      buffer := buffer + [frame];
      pushed := pushed + [frame];
      bufferedSamples := bufferedSamples + |samples|;
    }

    method Push(samples: seq<Sample>, nowMs: real)
      requires Valid()
      modifies this
      ensures Valid() && Now() == Step(old(Now()), Event.Push(samples, nowMs))
    {
      if ended || samples == [] { return; }
      AppendFrame(samples, nowMs);
      DropOldest();
      if consumer == Asleep { consumer := Woken; }
    }

    /** Takes the oldest frame off the buffer. */
    method Shift() returns (frame: Frame)
      requires Valid() && buffer != []
      modifies this`buffer, this`bufferedSamples, this`left
      ensures Valid() && frame == old(buffer)[0] && buffer == old(buffer)[1..] && left == old(left) + [frame]
    {
      frame := buffer[0];
      left := left + [frame];
      buffer := buffer[1..];
      bufferedSamples := bufferedSamples - |frame.samples|;
    }

    method DropOldest()
      requires Valid()
      modifies this`buffer, this`bufferedSamples, this`left
      ensures Valid() && Now() == Trimmed(old(Now()))
    {
      ghost var start, n := buffer, 0;
      while bufferedSamples > MAX_BUFFERED_SAMPLES
        invariant n <= |start| && buffer == start[n..] && Valid()
        invariant n + Excess(buffer) == Excess(start)
        invariant left == old(left) + start[..n]
        decreases |buffer|
      {
        if buffer == [] { break; }
        assert start[..n + 1] == start[..n] + [buffer[0]];
        var dropped := Shift();
        n := n + 1;
      }
    }

    method End()
      requires Valid()
      modifies this
      ensures Valid() && Now() == Step(old(Now()), Event.End)
    {
      ended := true;
      if consumer == Asleep { consumer := Woken; }
    }

    /** One turn of the iterator: a frame, or nothing while it sleeps or once it has finished. */
    method Pull() returns (frame: Option<Frame>)
      requires Valid() && (consumer == Away || consumer == Woken)
      modifies this
      ensures Valid() && Now() == Step(old(Now()), Event.Pull)
      ensures frame == if old(buffer) == [] then None else Some(old(buffer)[0])
    {
      if buffer != [] {
        var oldest := Shift();
        consumer := Away;
        return Some(oldest);
      }
      frame := None;
      consumer := if ended then Finished else Asleep;
    }
  }
}
