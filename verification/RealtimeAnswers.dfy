/** What the client is sent for each event (apps/realtime-gateway/src/openai-realtime.ts:119-611), said
    from the stream it has received so far. */
module RealtimeAnswers {
  import opened Prelude
  import opened RealtimeEvents

  // ----- what the adapter knows of the turn -----

  ghost predicate Began(events: seq<Event>) {
    exists k :: 0 <= k < |events| && events[k].TurnStarted?
  }

  ghost predicate Formatted(events: seq<Event>) {
    exists k :: 0 <= k < |events| && events[k].PlaybackFormat?
  }

  ghost predicate Closed(events: seq<Event>) {
    exists k :: 0 <= k < |events| && events[k].HandleClose?
  }

  predicate SameFlags(s: State, t: State) {
    t.turn == s.turn && t.resampler == s.resampler && t.closed == s.closed
  }

  lemma EmitKeepsFlags(s: State, e: Sent)
    ensures SameFlags(s, Emit(s, e)) && Emit(s, e).response == s.response && Emit(s, e).counter == s.counter
  {
  }

  lemma Emit3KeepsFlags(s: State, a: Sent, b: Sent, c: Sent)
    ensures SameFlags(s, Emit3(s, a, b, c))
  {
  }

  lemma ResponseKeepsFlags(s: State, status: Status)
    ensures SameFlags(s, EnsureResponse(s)) && SameFlags(s, CloseResponse(s, status)) && SameFlags(s, EndAudio(s))
  {
  }

  lemma ReplyKeepsFlags(s: State, text: string)
    ensures SameFlags(s, TextDeltaStep(s, text)) && SameFlags(s, CompleteStep(s))
  {
    ResponseKeepsFlags(s, Completed);
  }

  lemma CallKeepsFlags(s: State)
    ensures SameFlags(s, DispatchStep(s)) && SameFlags(s, Settle(s)) && SameFlags(s, Settle(Acknowledged(s)))
  {
    ResponseKeepsFlags(s, Completed);
  }

  /** Each flag is set by its own event and by no other, for good. */
  lemma StepFlags(s: State, e: Event)
    ensures var t := Step(s, e);
      && (t.turn <==> s.turn || e.TurnStarted?)
      && (t.resampler <==> s.resampler || e.PlaybackFormat?)
      && (t.closed <==> s.closed || e.HandleClose?)
  {
    hide EnsureResponse, CloseResponse, EndAudio, TextDeltaStep, CompleteStep, DispatchStep;
    match e
    case TextDelta(text) => ReplyKeepsFlags(s, text);
    case TurnCompleted => ReplyKeepsFlags(s, []);
    case TurnInterrupted => ResponseKeepsFlags(s, Cancelled);
    case PlaybackEnded => ResponseKeepsFlags(s, Cancelled);
    case ReplyAudio(_) => ResponseKeepsFlags(s, Cancelled);
    case Dispatch => CallKeepsFlags(s);
    case CallOutput(_) => CallKeepsFlags(s);
    case _ =>
  }

  lemma {:induction false} RunFlags(events: seq<Event>)
    ensures var s := Run(events);
      (s.turn <==> Began(events)) && (s.resampler <==> Formatted(events)) && (s.closed <==> Closed(events))
    decreases |events|
  {
    hide Step;
    if events != [] {
      var before, e := events[..|events| - 1], events[|events| - 1];
      RunFlags(before);
      StepFlags(Run(before), e);
      assert events == before + [e];
      OneMoreFlag(before, e);
    }
  }

  lemma OneMoreFlag(before: seq<Event>, e: Event)
    ensures Began(before + [e]) <==> Began(before) || e.TurnStarted?
    ensures Formatted(before + [e]) <==> Formatted(before) || e.PlaybackFormat?
    ensures Closed(before + [e]) <==> Closed(before) || e.HandleClose?
  {
    var events := before + [e];
    assert events[|before|] == e && forall k :: 0 <= k < |before| ==> events[k] == before[k];
  }

  // ----- what is sent -----

  /** The events that open a response. */
  function OpeningOf(r: Id, i: Id): seq<Sent> {
    [Created(r), ItemAdded(r, i), PartAdded(r, i)]
  }

  /** The response a reply joins: the open one, or a new one with the next two ids. */
  function ReplyIds(p: Place, counter: Id): (Id, Id) {
    if p.Inside? then (p.response, p.item) else (counter + 1, counter + 2)
  }

  function OpeningIfNeeded(p: Place, counter: Id): seq<Sent> {
    if p.Inside? then [] else OpeningOf(counter + 1, counter + 2)
  }

  /** What one event adds to an open stream that stands at `p`. `turn` and `resampler` tell whether a
      turn has begun and a playback format was announced, `pending` which call id waits. */
  function Owed(p: Place, counter: Id, turn: bool, resampler: bool, pending: Option<Id>, e: Event): seq<Sent> {
    var (r, i) := ReplyIds(p, counter);
    match e
    case TurnStarted => [OutsideResponse]
    case VadEnd => if turn then [OutsideResponse, OutsideResponse, OutsideResponse] else []
    case TranscriptFinal => if turn then [OutsideResponse] else []
    case TextDelta(text) => OpeningIfNeeded(p, counter) + [TranscriptDelta(r, i, text)]
    case TextFinal(text) => if p.Inside? then [TranscriptDone(r, i, text)] else []
    case PlaybackFormat => []
    case PlaybackEnded => if p.Inside? && !p.audioDone then [AudioDone(r, i)] else []
    case TurnCompleted =>
      if !p.Inside? then []
      else
        (if p.audioDone then [] else [AudioDone(r, i)]) + [PartDone(r, i, p.text), ItemDone(r, i), Done(r, Completed)]
    case TurnInterrupted => if p.Inside? then [Done(r, Cancelled)] else []
    case NativeError => [OutsideResponse]
    case ReplyAudio(silent) =>
      if !resampler then [] else OpeningIfNeeded(p, counter) + if silent then [] else [AudioDelta(r, i)]
    case Dispatch =>
      var n := if p.Inside? then counter else counter + 2;
      OpeningIfNeeded(p, counter)
      + [CallAdded(r, n + 2, n + 1), CallDelta(r, n + 2, n + 1), CallArgumentsDone(r, n + 2, n + 1),
         CallItemDone(r, n + 2, n + 1), Done(r, Completed)]
    case CallOutput(call) => if pending == Some(call) then [OutsideResponse, OutsideResponse] else [OutsideResponse]
    case _ => []
  }

  /** The id of the call that waits for its output. */
  function PendingId(s: State): Option<Id> {
    if s.pending.Some? && s.pending.value < |s.calls| then Some(s.calls[s.pending.value].id) else None
  }

  /** An open response's ids are those of the stream. */
  lemma EnsureSends(s: State)
    requires InStep(s) && !s.closed
    ensures var t, p := EnsureResponse(s), Parse(s.log);
      && t.log == s.log + OpeningIfNeeded(p, s.counter) && !t.closed
      && (t.response.value.id, t.response.value.item) == ReplyIds(p, s.counter)
      && t.counter == (if p.Inside? then s.counter else s.counter + 2)
  {
    assert s.log + [] == s.log;
  }

  lemma ReplySends(s: State, e: Event)
    requires InStep(s) && !s.closed && (e.TextDelta? || e.ReplyAudio?)
    ensures Step(s, e).log == s.log + Owed(Parse(s.log), s.counter, s.turn, s.resampler, PendingId(s), e)
  {
    hide Parse;
    EnsureSends(s);
    assert s.log + [] == s.log;
    var opening := OpeningIfNeeded(Parse(s.log), s.counter);
    assert opening + [] == opening;
  }

  lemma EndingSends(s: State, e: Event)
    requires InStep(s) && !s.closed && (e.PlaybackEnded? || e.TurnCompleted? || e.TurnInterrupted? || e.TextFinal?)
    ensures Step(s, e).log == s.log + Owed(Parse(s.log), s.counter, s.turn, s.resampler, PendingId(s), e)
  {
    hide Parse;
    assert s.log + [] == s.log;
  }

  lemma DispatchSends(s: State)
    requires InStep(s) && !s.closed
    ensures Step(s, Dispatch).log == s.log + Owed(Parse(s.log), s.counter, s.turn, s.resampler, PendingId(s), Dispatch)
  {
    hide Parse;
    EnsureSends(s);
  }

  lemma OtherSends(s: State, e: Event)
    requires InStep(s) && !s.closed
    requires e.TurnStarted? || e.VadEnd? || e.TranscriptFinal? || e.PlaybackFormat? || e.NativeError? || e.CallOutput?
      || e.TimerFires? || e.AbortSignal? || e.HandleClose?
    ensures Step(s, e).log == s.log + Owed(Parse(s.log), s.counter, s.turn, s.resampler, PendingId(s), e)
  {
    hide Parse;
    assert s.log + [] == s.log;
  }

  lemma ClosedRepliesNothing(s: State, text: string)
    requires s.closed
    ensures EnsureResponse(s).log == s.log && EnsureResponse(s).closed
    ensures TextDeltaStep(s, text).log == s.log
    ensures CompleteStep(s).log == s.log && CloseResponse(s, Cancelled).log == s.log && EndAudio(s).log == s.log
  {
  }

  lemma ClosedDispatchesNothing(s: State)
    requires s.closed
    ensures DispatchStep(s).log == s.log
  {
    hide EnsureResponse;
    ClosedRepliesNothing(s, []);
  }

  lemma ClosedSendsNothing(s: State, e: Event)
    requires s.closed
    ensures Step(s, e).log == s.log
  {
    hide EnsureResponse, TextDeltaStep, CompleteStep, CloseResponse, EndAudio, DispatchStep;
    match e
    case TextDelta(text) => ClosedRepliesNothing(s, text);
    case Dispatch => ClosedDispatchesNothing(s);
    case _ => ClosedRepliesNothing(s, []);
  }

  lemma RunMore(events: seq<Event>, e: Event)
    ensures Run(events + [e]) == Step(Run(events), e)
  {
    assert (events + [e])[..|events|] == events;
  }

  /** In every run the stream goes on, event by event, with exactly what each is owed, until the
      connection closes. */
  lemma StreamGoesOn(events: seq<Event>, e: Event)
    ensures var s := Run(events);
      Run(events + [e]).log == s.log +
        if Closed(events) then []
        else Owed(Parse(s.log), s.counter, Began(events), Formatted(events), PendingId(s), e)
  {
    hide Step, Run, Parse, Owed, InStep;
    var s := Run(events);
    RunMore(events, e);
    RunFlags(events);
    StreamIsOnGrammar(events);
    if s.closed {
      ClosedSendsNothing(s, e);
      assert s.log + [] == s.log;
    } else if e.TextDelta? || e.ReplyAudio? {
      ReplySends(s, e);
    } else if e.PlaybackEnded? || e.TurnCompleted? || e.TurnInterrupted? || e.TextFinal? {
      EndingSends(s, e);
    } else if e.Dispatch? {
      DispatchSends(s);
    } else {
      OtherSends(s, e);
    }
  }

  /** A timer fires once, and an abort is heard once, whichever call it resolves. */
  lemma FiresOnce(s: State, k: nat)
    requires k < |s.calls|
    ensures var t := Step(s, TimerFires(k)); |t.calls| == |s.calls| && !t.calls[k].timer
    ensures var t := Step(s, AbortSignal(k)); |t.calls| == |s.calls| && !t.calls[k].listener
  {
  }

  // ----- the texts of a whole run -----

  /** All transcript deltas of a stream, one after the other. */
  function Deltas(log: seq<Sent>): string {
    if log == [] then []
    else Deltas(log[..|log| - 1]) + if log[|log| - 1].TranscriptDelta? then log[|log| - 1].text else []
  }

  /** The texts the session produced while the connection was open. */
  ghost function TextsOf(events: seq<Event>): string {
    if events == [] then []
    else
      var before, e := events[..|events| - 1], events[|events| - 1];
      TextsOf(before) + if e.TextDelta? && !Closed(before) then e.text else []
  }

  lemma {:induction false} DeltasOf(a: seq<Sent>, b: seq<Sent>)
    ensures Deltas(a + b) == Deltas(a) + Deltas(b)
    decreases |b|
  {
    if b == [] {
      assert a + b == a;
    } else {
      DeltasOf(a, b[..|b| - 1]);
      assert (a + b)[..|a + b| - 1] == a + b[..|b| - 1];
    }
  }

  lemma {:induction false} NoDeltas(log: seq<Sent>)
    requires forall k :: 0 <= k < |log| ==> !log[k].TranscriptDelta?
    ensures Deltas(log) == []
    decreases |log|
  {
    if log != [] { NoDeltas(log[..|log| - 1]); }
  }

  lemma OthersOweNoDelta(p: Place, counter: Id, turn: bool, resampler: bool, pending: Option<Id>, e: Event, k: nat)
    requires !e.TextDelta? && k < |Owed(p, counter, turn, resampler, pending, e)|
    ensures !Owed(p, counter, turn, resampler, pending, e)[k].TranscriptDelta?
  {
  }

  lemma TextOwesItsDelta(opening: seq<Sent>, e: Sent)
    requires e.TranscriptDelta? && forall k :: 0 <= k < |opening| ==> !opening[k].TranscriptDelta?
    ensures Deltas(opening + [e]) == e.text
  {
    NoDeltas(opening);
    DeltasOf(opening, [e]);
    assert [e][..0] == [];
  }

  /** Only a text delta owes a transcript delta, with its own text. */
  lemma OwedDeltas(p: Place, counter: Id, turn: bool, resampler: bool, pending: Option<Id>, e: Event)
    ensures Deltas(Owed(p, counter, turn, resampler, pending, e)) == if e.TextDelta? then e.text else []
  {
    hide Deltas;
    var owed := Owed(p, counter, turn, resampler, pending, e);
    if e.TextDelta? {
      var opening := OpeningIfNeeded(p, counter);
      TextOwesItsDelta(opening, owed[|opening|]);
    } else {
      hide Owed;
      forall k | 0 <= k < |owed| ensures !owed[k].TranscriptDelta? {
        OthersOweNoDelta(p, counter, turn, resampler, pending, e, k);
      }
      NoDeltas(owed);
    }
  }

  /** The client receives every word of the reply and nothing else, in order: the transcript deltas of
      a run are the texts the session produced while the connection was open. */
  lemma {:induction false} EveryWordIsSent(events: seq<Event>)
    ensures Deltas(Run(events).log) == TextsOf(events)
    decreases |events|
  {
    hide Step, Run, Parse, Owed, Deltas, Began, Formatted, Closed, PendingId;
    if events == [] {
      NothingYet();
    } else {
      var before, e := events[..|events| - 1], events[|events| - 1];
      var s := Run(before);
      var owed := Owed(Parse(s.log), s.counter, Began(before), Formatted(before), PendingId(s), e);
      EveryWordIsSent(before);
      assert events == before + [e];
      StreamGoesOn(before, e);
      DeltasOf(s.log, owed);
      OwedDeltas(Parse(s.log), s.counter, Began(before), Formatted(before), PendingId(s), e);
      assert s.log + [] == s.log;
    }
  }

  lemma NothingYet()
    ensures Deltas(Run([]).log) == []
  {
    NoDeltas(FRESH.log);
  }
}
