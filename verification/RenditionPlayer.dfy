/** The player object (apps/realtime-gateway/src/session.ts, createPlayer): its closures update
    the queue, the numbering and the pacing in place, one atomic segment per call, and each is
    proved to take the step MediaPlayer.dfy describes and to keep its invariant. */
module RenditionPlayers {
  import opened Prelude
  import opened MediaPlayer

  type PlayableRendition = r: Rendition | IsRendition(r) witness Rendition(24000, 20)

  class RenditionPlayer {
    const rendition: PlayableRendition
    var clock: real
    var closed: bool
    var aborted: bool
    var failed: bool
    var started: bool
    var writer: Writer
    var pump: Pump
    var queue: seq<Frame>
    var queuedMs: real
    var paceStart: Option<real>
    var pacedMs: real
    var nextSequence: nat
    var nextTimestamp: nat
    var end: End
    ghost var log: Log

    ghost function Now(): State
      reads this
    {
      State(clock, closed, aborted, failed, started, writer, pump, queue, queuedMs, paceStart, pacedMs,
            nextSequence, nextTimestamp, end, log)
    }

    ghost predicate Valid()
      reads this
    {
      Inv(rendition, Now())
    }

    constructor (rendition: PlayableRendition)
      ensures Valid() && this.rendition == rendition && Now() == FRESH
    {
      this.rendition := rendition;
      clock, closed, aborted, failed, started := 0.0, false, false, false, false;
      writer, pump, queue, queuedMs := NotWriting, Stopped, [], 0.0;
      paceStart, pacedMs, nextSequence, nextTimestamp := None, 0.0, 0, 0;
      end, log := NotEnded, Log([], [], [], [], false);
      new;
      RunKeeps(rendition, []);
    }

    method EnsurePump()
      modifies this`pump
      ensures Now() == MediaPlayer.EnsurePump(old(Now()))
    {
      if pump != Stopped || aborted || failed || queue == [] {
        return;
      }
      pump := AtHead;
    }

    method WakeCapacity()
      modifies this`writer
      ensures Now() == Wake(old(Now()))
    {
      if writer.Asleep? {
        writer := AwaitingRoom(writer.rest);
      }
    }

    method FailTransport()
      modifies this`failed, this`writer
      ensures Now() == MediaPlayer.FailTransport(old(Now()))
    {
      if failed || aborted {
        return;
      }
      failed := true;
      WakeCapacity();
    }

    /** `write`, up to its first wait for capacity; false when the call throws. */
    method Write(output: seq<Sample>) returns (accepted: bool)
      requires Valid() && writer == NotWriting
      modifies this
      ensures Valid() && Now() == WriteStep(old(Now()), output)
      ensures accepted <==> !old(closed) && !old(failed)
    {
      StepKeeps(rendition, Now(), WriteCall(output));
      if closed || failed {
        return false;
      }
      accepted := true;
      if aborted || output == [] {
        return;
      }
      started := true;
      log := log.(resampled := log.resampled + output);
      writer := AwaitingRoom(output);
    }

    /** One look at the queue in `waitForCapacity`, with the sleep that may follow. */
    method AskRoom()
      requires Valid() && writer.AwaitingRoom?
      modifies this
      ensures Valid() && Now() == AskRoomStep(rendition, old(Now()))
    {
      AskRoomKeeps(rendition, Now());
      var audioMs := Ms(rendition, |NextSlice(rendition, writer.rest)|);
      if !aborted && !failed && queuedMs + audioMs > MAX_QUEUED_MS + QUEUE_SLACK_MS {
        EnsurePump();
        writer := Asleep(writer.rest);
      } else if aborted || failed {
        writer := NotWriting;
      } else {
        writer := Admitted(writer.rest);
      }
    }

    /** The body of the writer's loop once it has room: number the frame and queue it. */
    method Push()
      requires Valid() && writer.Admitted?
      modifies this
      ensures Valid() && Now() == PushStep(rendition, old(Now()))
    {
      PushKeeps(rendition, Now());
      QueueNextFrame();
      EnsurePump();
    }

    method QueueNextFrame()
      requires writer.Admitted?
      modifies this
      ensures Now() == Pushed(rendition, old(Now()))
    {
      var samples := NextSlice(rendition, writer.rest);
      var frame := Frame(nextSequence, nextTimestamp, nextSequence == 0, samples);
      assert frame == PushedFrame(rendition, old(Now()));
      nextSequence := nextSequence + 1;
      nextTimestamp := nextTimestamp + |samples|;
      Enqueue(frame);
      var rest := writer.rest[|samples|..];
      writer := if rest == [] then NotWriting else AwaitingRoom(rest);
    }

    method Enqueue(frame: Frame)
      modifies this`queue, this`queuedMs, this`log
      ensures queue == old(queue) + [frame] && queuedMs == old(queuedMs) + Ms(rendition, Duration(frame))
      ensures log == old(log).(produced := old(log).produced + [frame])
    {
      queue := queue + [frame];
      queuedMs := queuedMs + Ms(rendition, Duration(frame));
      log := log.(produced := log.produced + [frame]);
    }

    /** The pump's loop head, once the socket is writable or the wait for it ended otherwise. */
    method PassGate(gate: Gate)
      requires Valid() && pump == AtHead
      modifies this
      ensures Valid() && Now() == PassGateStep(old(Now()), gate)
    {
      GateKeeps(rendition, Now(), gate);
      if aborted || queue == [] || gate == Cancelled {
        pump := Ending;
        return;
      }
      if gate == Broken {
        pump := Ending;
        FailTransport();
        return;
      }
      BeginPacing();
    }

    method BeginPacing()
      requires queue != []
      modifies this`paceStart, this`pump
      ensures Now() == StartPacing(old(Now()))
    {
      if paceStart.None? {
        paceStart := Some(clock);
      }
      pump := Pacing(queue[0], paceStart.value + MaxReal(0.0, pacedMs - INITIAL_BURST_MS));
    }

    /** `waitForMediaPace` answers, at its due time or on an abort. */
    method AnswerPace()
      requires Valid() && pump.Pacing?
      modifies this`pump
      ensures Valid() && Now() == AnswerPaceStep(old(Now()))
    {
      AnswerKeeps(rendition, Now());
      if aborted {
        pump := Ending;
      } else if pump.dueMs <= clock {
        pump := Cleared(pump.next);
      }
    }

    /** The head of the queue is taken off. */
    method TakeHead(frame: Frame)
      modifies this`queue, this`queuedMs, this`writer
      ensures Now() == HeadTaken(rendition, old(Now()), frame)
    {
      if queue != [] {
        queue := queue[1..];
      }
      queuedMs := MaxReal(0.0, queuedMs - Ms(rendition, Duration(frame)));
      WakeCapacity();
    }

    /** The frame goes to the socket and off the queue. */
    method Submit(delivery: Delivery)
      requires Valid() && pump.Cleared?
      modifies this
      ensures Valid() && Now() == SubmitStep(rendition, old(Now()), delivery)
    {
      SubmitKeeps(rendition, Now(), delivery);
      SubmitHead(delivery);
    }

    method SubmitHead(delivery: Delivery)
      requires pump.Cleared?
      modifies this
      ensures Now() == SubmitStep(rendition, old(Now()), delivery)
    {
      var frame := pump.next;
      TakeHead(frame);
      if delivery == Lost {
        DropFrame(frame);
      } else {
        CountSent(frame, delivery == SentUnderPressure);
      }
    }

    /** The socket did not take the frame: the transport fails and the pump ends. */
    method DropFrame(frame: Frame)
      modifies this`log, this`pump, this`failed, this`writer
      ensures Now() == FrameLost(old(Now()), frame)
    {
      log := log.(dropped := log.dropped + [frame]);
      pump := Ending;
      FailTransport();
    }

    method CountSent(frame: Frame, pressured: bool)
      modifies this`log, this`pacedMs, this`pump
      ensures Now() == FrameSent(rendition, old(Now()), frame, pressured)
    {
      pacedMs := pacedMs + Ms(rendition, Duration(frame));
      log := log.(submitted := log.submitted + [frame]);
      pump := if pressured then Pressured else AtHead;
    }

    method Drained(gate: Gate)
      requires Valid() && pump == Pressured
      modifies this
      ensures Valid() && Now() == DrainedStep(old(Now()), gate)
    {
      MediaPlayer.DrainedKeeps(rendition, Now(), gate);
      if gate == Broken {
        pump := Ending;
        FailTransport();
      } else if gate == Cancelled || aborted {
        pump := Ending;
      } else {
        pump := AtHead;
      }
    }

    method PumpEnded()
      requires Valid() && pump == Ending
      modifies this
      ensures Valid() && Now() == PumpEndedStep(old(Now()))
    {
      PumpEndedKeeps(rendition, Now());
      pump := Stopped;
      WakeCapacity();
      EnsurePump();
    }

    /** `abort`; true when this call is the one that stopped the rendition. */
    method Abort() returns (stopped: bool)
      requires Valid()
      modifies this
      ensures Valid() && Now() == AbortStep(old(Now())) && stopped == !old(aborted)
    {
      if aborted {
        return false;
      }
      AbortKeeps(rendition, Now());
      DropQueued();
      stopped := true;
    }

    method DropQueued()
      requires !aborted
      modifies this
      ensures Now() == AbortStep(old(Now()))
    {
      aborted := true;
      log := log.(dropped := log.dropped + queue, late := pump.Cleared?);
      queue := [];
      queuedMs := 0.0;
      WakeCapacity();
    }

    /** `close`, from the call to its wait for the pump. */
    method Close()
      requires Valid() && writer == NotWriting
      modifies this
      ensures Valid() && Now() == Step(rendition, old(Now()), CloseCall)
    {
      CloseKeeps(rendition, Now());
      closed := true;
      EnsurePump();
    }

    /** The end of `close`; a total is reported exactly when there was audio and all of it was
        submitted. */
    method FinishClose(gate: Gate) returns (totalSamples: Option<nat>)
      requires Valid() && closed && pump == Stopped && end == NotEnded
      modifies this
      ensures Valid() && Now() == CloseDoneStep(old(Now()), gate)
      ensures totalSamples.Some? ==>
        log.submitted == log.produced && totalSamples.value == |log.resampled| == FrameTotal(log.submitted)
      ensures totalSamples.Some? <==> !old(failed) && !old(aborted) && gate == Writable && log.resampled != []
    {
      CloseDoneKeeps(rendition, Now(), gate);
      AudioLength(log.produced);
      totalSamples := None;
      if failed || aborted || gate == Cancelled {
        return;
      }
      if gate == Broken {
        FailTransport();
        return;
      }
      if !started {
        end := Silent;
        return;
      }
      end := Total(nextTimestamp);
      totalSamples := Some(nextTimestamp);
    }
  }
}
