/** The adapter object (apps/realtime-gateway/src/openai-realtime.ts): its handlers update the
    open response, the pending call and the outgoing stream in place, each as the step
    RealtimeEvents.dfy describes, so the stream stays on the grammar. */
module RealtimeConnections {
  import opened Prelude
  import opened RealtimeEvents

  class OpenAiRealtimeConnection {
    var closed: bool
    var idCounter: nat
    var currentTurn: bool
    var outputResampler: bool
    var response: Option<OpenResponse>
    var pendingCall: Option<nat>
    var calls: seq<Call>
    /** Everything sent to the client, in order. */
    var sent: seq<Sent>

    ghost function Now(): State
      reads this
    {
      State(closed, idCounter, currentTurn, outputResampler, response, pendingCall, calls, sent)
    }

    ghost predicate Valid()
      reads this
    {
      InStep(Now())
    }

    constructor ()
      ensures Now() == FRESH && Valid()
    {
      closed, idCounter, currentTurn, outputResampler := false, 0, false, false;
      response, pendingCall, calls, sent := None, None, [], [OutsideResponse];
      new;
      StreamIsOnGrammar([]);
    }

    method Emit(e: Sent)
      modifies this`sent
      ensures Now() == RealtimeEvents.Emit(old(Now()), e)
    {
      if closed {
        return;
      }
      sent := sent + [e];
    }

    method NewId() returns (id: Id)
      modifies this`idCounter
      ensures Now() == old(Now()).(counter := old(idCounter) + 1) && id == idCounter
    {
      idCounter := idCounter + 1;
      id := idCounter;
    }

    method EnsureResponse()
      modifies this
      ensures Now() == RealtimeEvents.EnsureResponse(old(Now()))
    {
      if response.Some? {
        return;
      }
      var id := NewId();
      var item := NewId();
      response := Some(OpenResponse(id, item, false, []));
      Emit(Created(id));
      Emit(ItemAdded(id, item));
      Emit(PartAdded(id, item));
    }

    method CloseResponse(status: Status)
      modifies this
      ensures Now() == RealtimeEvents.CloseResponse(old(Now()), status)
    {
      if response.None? {
        return;
      }
      var done := response.value;
      response := None;
      Emit(Done(done.id, status));
    }

    /** `playback.ended`, and the first half of `turn.completed`. */
    method EndAudio()
      modifies this
      ensures Now() == RealtimeEvents.EndAudio(old(Now()))
    {
      if response.None? || response.value.audioDone {
        return;
      }
      response := Some(response.value.(audioDone := true));
      Emit(AudioDone(response.value.id, response.value.item));
    }

    method SettlePendingCall()
      modifies this`pendingCall, this`calls
      ensures Now() == Settle(old(Now()))
    {
      if pendingCall.None? || pendingCall.value >= |calls| {
        return;
      }
      var k := pendingCall.value;
      pendingCall := None;
      calls := calls[k := Call(calls[k].id, calls[k].resolved + 1, false, false)];
    }

    method TextDelta(text: string)
      modifies this
      ensures Now() == TextDeltaStep(old(Now()), text)
    {
      EnsureResponse();
      response := Some(response.value.(transcript := response.value.transcript + text));
      Emit(TranscriptDelta(response.value.id, response.value.item, text));
    }

    method CompleteTurn()
      modifies this
      ensures Now() == CompleteStep(old(Now()))
    {
      if response.None? {
        return;
      }
      EndAudio();
      var done := response.value;
      Emit(PartDone(done.id, done.item, done.transcript));
      Emit(ItemDone(done.id, done.item));
      CloseResponse(Completed);
    }

    /** The native events, and the session's reply audio. */
    method HandleNative(e: Event)
      requires Valid() && !e.Dispatch? && !e.CallOutput? && !e.TimerFires? && !e.AbortSignal? && !e.HandleClose?
      modifies this
      ensures Valid() && Now() == Step(old(Now()), e)
      ensures Parse(sent) != OffGrammar
    {
      StepKeeps(Now(), e);
      TakeNative(e);
    }

    method TakeNative(e: Event)
      requires !e.Dispatch? && !e.CallOutput? && !e.TimerFires? && !e.AbortSignal? && !e.HandleClose?
      modifies this
      ensures Now() == Step(old(Now()), e)
    {
      match e
      case TurnStarted =>
        var _ := NewId();
        currentTurn := true;
        Emit(OutsideResponse);
      case VadEnd =>
        if currentTurn {
          Emit(OutsideResponse);
          Emit(OutsideResponse);
          Emit(OutsideResponse);
        }
      case TranscriptFinal =>
        if currentTurn { Emit(OutsideResponse); }
      case TextDelta(text) => TextDelta(text);
      case TextFinal(text) =>
        if response.Some? { Emit(TranscriptDone(response.value.id, response.value.item, text)); }
      case PlaybackFormat => outputResampler := true;
      case PlaybackEnded => EndAudio();
      case TurnCompleted => CompleteTurn();
      case TurnInterrupted => CloseResponse(Cancelled);
      case NativeError => Emit(OutsideResponse);
      case ReplyAudio(silent) =>
        if outputResampler && !closed {
          EnsureResponse();
          if !silent { Emit(AudioDelta(response.value.id, response.value.item)); }
        }
    }

    /** A client tool call: announced as the response's output, its promise left pending. */
    method DispatchFunctionCall() returns (call: nat)
      requires Valid()
      modifies this
      ensures Valid() && Now() == Step(old(Now()), Dispatch) && call == |old(calls)|
    {
      DispatchKeeps(Now());
      EnsureResponse();
      call := |calls|;
      AnnounceCall();
    }

    method EmitCall(r: Id, itemId: Id, callId: Id)
      modifies this`sent
      ensures Now() == RealtimeEvents.Emit(Announced(old(Now()), r, itemId, callId), CallItemDone(r, itemId, callId))
    {
      Emit(CallAdded(r, itemId, callId));
      Emit(CallDelta(r, itemId, callId));
      Emit(CallArgumentsDone(r, itemId, callId));
      Emit(CallItemDone(r, itemId, callId));
    }

    method AnnounceCall()
      requires response.Some?
      modifies this
      ensures Now() == CallStep(old(Now()))
    {
      ghost var before, r := Now(), response.value.id;
      var callId := NewId();
      var itemId := NewId();
      assert Now() == before.(counter := before.counter + 2) && response.value.id == r;
      EmitCall(response.value.id, itemId, callId);
      CloseResponse(Completed);
      Await(callId);
    }

    /** The call's promise waits, with its timer and its listener. */
    method Await(callId: Id)
      modifies this`pendingCall, this`calls
      ensures Now() == old(Now()).(pending := Some(|old(calls)|), calls := old(calls) + [Call(callId, 0, true, true)])
    {
      pendingCall := Some(|calls|);
      calls := calls + [Call(callId, 0, true, true)];
    }

    /** A client's function_call_output; false when no such call waits. */
    method HandleCallOutput(call: Id) returns (matched: bool)
      requires Valid()
      modifies this
      ensures Valid() && Now() == Step(old(Now()), CallOutput(call))
      ensures matched ==> pendingCall.None?
    {
      hide InStep;
      CallOutputKeeps(Now(), call);
      if pendingCall.None? || pendingCall.value >= |calls| || calls[pendingCall.value].id != call {
        Emit(OutsideResponse);
        return false;
      }
      var _ := NewId();
      Emit(OutsideResponse);
      Emit(OutsideResponse);
      SettlePendingCall();
      matched := true;
    }

    method HandleTimer(k: nat)
      requires Valid() && k < |calls| && calls[k].timer
      modifies this`pendingCall, this`calls
      ensures Valid() && Now() == Step(old(Now()), TimerFires(k))
    {
      StepKeeps(Now(), TimerFires(k));
      calls := calls[k := calls[k].(timer := false)];
      SettlePendingCall();
    }

    method HandleAbort(k: nat)
      requires Valid() && k < |calls| && calls[k].listener
      modifies this`pendingCall, this`calls
      ensures Valid() && Now() == Step(old(Now()), AbortSignal(k))
    {
      StepKeeps(Now(), AbortSignal(k));
      calls := calls[k := calls[k].(listener := false)];
      SettlePendingCall();
    }

    method HandleClose()
      requires Valid()
      modifies this
      ensures Valid() && Now() == Step(old(Now()), Event.HandleClose) && closed
    {
      StepKeeps(Now(), Event.HandleClose);
      if closed {
        return;
      }
      closed := true;
      SettlePendingCall();
    }
  }
}
