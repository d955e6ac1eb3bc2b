/** The OpenAI Realtime dialect (apps/realtime-gateway/src/openai-realtime.ts): what the adapter
    sends for any interleaving of native events, reply audio and function calls, checked
    against a grammar of the stream; and who resolves a function call. */
module RealtimeEvents {
  import opened Prelude

  /** Ids come from one counter, so an id is the number it was minted with. */
  type Id = nat

  // ----- the stream and its grammar -----

  datatype Status = Completed | Cancelled

  /** Server events. Those of a response carry its id; the rest are lumped together. */
  datatype Sent =
    | Created(response: Id)
    | ItemAdded(response: Id, item: Id)
    | PartAdded(response: Id, item: Id)
    | TranscriptDelta(response: Id, item: Id, text: string)
    | TranscriptDone(response: Id, item: Id, text: string)
    | AudioDelta(response: Id, item: Id)
    | AudioDone(response: Id, item: Id)
    | PartDone(response: Id, item: Id, text: string)
    | ItemDone(response: Id, item: Id)
    | CallAdded(response: Id, item: Id, call: Id)
    | CallDelta(response: Id, item: Id, call: Id)
    | CallArgumentsDone(response: Id, item: Id, call: Id)
    | CallItemDone(response: Id, item: Id, call: Id)
    | Done(response: Id, status: Status)
    | OutsideResponse

  /** Where a stream stands: between responses (the last id seen), opening one, inside one, or
      closing one with a message or a function call. */
  datatype Place =
    | Between(last: Id)
    | Opening(response: Id)
    | ItemOpen(response: Id, item: Id)
    | Inside(response: Id, item: Id, audioDone: bool, text: string)
    | PartClosed(response: Id, item: Id)
    | ItemClosed(response: Id)
    | Calling(response: Id, item: Id, call: Id, stage: nat)
    | OffGrammar

  /** The grammar, as the automaton that reads a stream one event at a time. */
  function Next(p: Place, e: Sent): Place {
    if e.OutsideResponse? then (if p.Between? || p.Inside? then p else OffGrammar)
    else
      match p
      case Between(last) => if e.Created? && last < e.response then Opening(e.response) else OffGrammar
      case Opening(r) => if e.ItemAdded? && e.response == r then ItemOpen(r, e.item) else OffGrammar
      case ItemOpen(r, i) => if e == PartAdded(r, i) then Inside(r, i, false, []) else OffGrammar
      case Inside(r, i, audioDone, text) =>
        if e.response != r then OffGrammar
        else
          (match e
           case TranscriptDelta(_, item, more) => if item == i then Inside(r, i, audioDone, text + more) else OffGrammar
           case TranscriptDone(_, item, _) => if item == i then p else OffGrammar
           case AudioDelta(_, item) => if item == i then p else OffGrammar
           case AudioDone(_, item) => if item == i && !audioDone then Inside(r, i, true, text) else OffGrammar
           case PartDone(_, item, whole) =>
             if item == i && audioDone && whole == text then PartClosed(r, i) else OffGrammar
           case CallAdded(_, item, call) => Calling(r, item, call, 0)
           case Done(_, status) => if status == Cancelled then Between(r) else OffGrammar
           case _ => OffGrammar)
      case PartClosed(r, i) => if e == ItemDone(r, i) then ItemClosed(r) else OffGrammar
      case ItemClosed(r) => if e == Done(r, Completed) then Between(r) else OffGrammar
      case Calling(r, i, call, stage) =>
        if stage == 0 && e == CallDelta(r, i, call) then Calling(r, i, call, 1)
        else if stage == 1 && e == CallArgumentsDone(r, i, call) then Calling(r, i, call, 2)
        else if stage == 2 && e == CallItemDone(r, i, call) then ItemClosed(r)
        else OffGrammar
      case OffGrammar => OffGrammar
  }

  function Parse(log: seq<Sent>): Place {
    if log == [] then Between(0) else Next(Parse(log[..|log| - 1]), log[|log| - 1])
  }

  lemma ParseOneMore(log: seq<Sent>, e: Sent)
    ensures Parse(log + [e]) == Next(Parse(log), e)
  {
    assert (log + [e])[..|log|] == log;
  }

  // ----- what the grammar means -----

  function ResponseOf(p: Place): Option<Id> {
    match p
    case Between(_) => None
    case OffGrammar => None
    case Opening(r) => Some(r)
    case ItemOpen(r, _) => Some(r)
    case Inside(r, _, _, _) => Some(r)
    case PartClosed(r, _) => Some(r)
    case ItemClosed(r) => Some(r)
    case Calling(r, _, _, _) => Some(r)
  }

  lemma {:induction false} PrefixParses(log: seq<Sent>, n: nat)
    requires Parse(log) != OffGrammar && n <= |log|
    ensures Parse(log[..n]) != OffGrammar
    decreases |log|
  {
    if n < |log| {
      PrefixParses(log[..|log| - 1], n);
      assert log[..|log| - 1][..n] == log[..n];
    } else {
      assert log[..n] == log;
    }
  }

  /** The open response was created at `at`, and nothing since belongs to another or ends it. */
  ghost predicate OpenSince(log: seq<Sent>, at: nat, r: Id) {
    && at < |log| && log[at] == Created(r)
    && forall k :: at < k < |log| ==>
      !log[k].Created? && !log[k].Done? && (log[k].OutsideResponse? || log[k].response == r)
  }

  lemma {:induction false} OpenResponseWasCreated(log: seq<Sent>) returns (at: nat)
    requires ResponseOf(Parse(log)).Some?
    ensures OpenSince(log, at, ResponseOf(Parse(log)).value)
    decreases |log|
  {
    var n := |log| - 1;
    if log[n].Created? {
      at := n;
    } else {
      at := OpenResponseWasCreated(log[..n]);
      var r := ResponseOf(Parse(log[..n])).value;
      forall k | at < k < |log|
        ensures !log[k].Created? && !log[k].Done? && (log[k].OutsideResponse? || log[k].response == r) {
        if k < n { assert log[k] == log[..n][k]; }
      }
      assert log[at] == log[..n][at];
    }
  }

  /** Every event of a response lies inside that response's own created/done pair. */
  lemma ScopedEventsAreInside(log: seq<Sent>, n: nat) returns (at: nat)
    requires Parse(log) != OffGrammar && n < |log| && !log[n].OutsideResponse? && !log[n].Created?
    ensures OpenSince(log[..n], at, log[n].response)
  {
    PrefixParses(log, n + 1);
    PrefixParses(log, n);
    assert log[..n + 1][..n] == log[..n];
    at := OpenResponseWasCreated(log[..n]);
  }

  function LastSeen(p: Place): Id {
    if p.Between? then p.last else if ResponseOf(p).Some? then ResponseOf(p).value else 0
  }

  lemma SeenGrows(p: Place, e: Sent)
    requires Next(p, e) != OffGrammar
    ensures LastSeen(p) <= LastSeen(Next(p, e))
    ensures e.Created? ==> LastSeen(p) < e.response == LastSeen(Next(p, e))
  {
  }

  lemma PartClosesInside(p: Place, e: Sent)
    requires Next(p, e) != OffGrammar && e.PartDone?
    ensures p.Inside? && e.text == p.text
  {
  }

  lemma {:induction false} IdsGrow(log: seq<Sent>, n: nat)
    requires Parse(log) != OffGrammar && n < |log| && log[n].Created?
    ensures log[n].response <= LastSeen(Parse(log))
    ensures LastSeen(Parse(log[..n])) < log[n].response
    decreases |log|
  {
    var last := |log| - 1;
    PrefixParses(log, last);
    SeenGrows(Parse(log[..last]), log[last]);
    if n < last {
      IdsGrow(log[..last], n);
      assert log[..last][..n] == log[..n];
    }
  }

  /** Response ids are fresh: each is larger than every one created before it. */
  lemma CreatedIdsAreFresh(log: seq<Sent>, m: nat, n: nat)
    requires Parse(log) != OffGrammar && m < n < |log| && log[m].Created? && log[n].Created?
    ensures log[m].response < log[n].response
  {
    PrefixParses(log, n);
    IdsGrow(log, n);
    assert log[..n][m] == log[m];
    IdsGrow(log[..n], m);
  }

  /** The transcript deltas since the last response was created. */
  function DeltasSinceCreated(log: seq<Sent>): string {
    if log == [] then [] else
      var e := log[|log| - 1];
      if e.Created? then []
      else DeltasSinceCreated(log[..|log| - 1]) + if e.TranscriptDelta? then e.text else []
  }

  function AudioDonesSinceCreated(log: seq<Sent>): nat {
    if log == [] then 0 else
      var e := log[|log| - 1];
      if e.Created? then 0
      else AudioDonesSinceCreated(log[..|log| - 1]) + if e.AudioDone? then 1 else 0
  }

  lemma {:induction false} InsideRemembers(log: seq<Sent>)
    ensures var p := Parse(log);
      && (p.Inside? ==>
          p.text == DeltasSinceCreated(log) && AudioDonesSinceCreated(log) == if p.audioDone then 1 else 0)
      && (p.Opening? || p.ItemOpen? ==> DeltasSinceCreated(log) == [] && AudioDonesSinceCreated(log) == 0)
      && (p != OffGrammar && log != [] ==> AudioDonesSinceCreated(log) <= 1)
    decreases |log|
  {
    if log != [] {
      var n := |log| - 1;
      InsideRemembers(log[..n]);
      if Parse(log) != OffGrammar && n > 0 { PrefixParses(log, n); }
    }
  }

  /** Audio ends at most once per response. */
  lemma AudioEndsOnce(log: seq<Sent>, n: nat)
    requires Parse(log) != OffGrammar && 0 < n <= |log|
    ensures AudioDonesSinceCreated(log[..n]) <= 1
  {
    PrefixParses(log, n);
    InsideRemembers(log[..n]);
  }

  /** The transcript a response closes with is the concatenation of its deltas. */
  lemma TranscriptIsItsDeltas(log: seq<Sent>, n: nat)
    requires Parse(log) != OffGrammar && n < |log| && log[n].PartDone?
    ensures log[n].text == DeltasSinceCreated(log[..n])
  {
    hide Parse, DeltasSinceCreated;
    PrefixParses(log, n + 1);
    assert log[..n + 1] == log[..n] + [log[n]];
    ParseOneMore(log[..n], log[n]);
    PartClosesInside(Parse(log[..n]), log[n]);
    InsideRemembers(log[..n]);
  }

  // ----- the adapter -----

  datatype OpenResponse = OpenResponse(id: Id, item: Id, audioDone: bool, transcript: string)

  /** One dispatched call: how often its promise was resolved, and whether its timer and its
      abort listener are still set. */
  datatype Call = Call(id: Id, resolved: nat, timer: bool, listener: bool)

  datatype State = State(
    closed: bool, counter: nat, turn: bool, resampler: bool, response: Option<OpenResponse>,
    pending: Option<nat>, calls: seq<Call>, log: seq<Sent>)

  const FRESH := State(false, 0, false, false, None, None, [], [OutsideResponse])

  datatype Event =
    | TurnStarted
    | VadEnd
    | TranscriptFinal
    | TextDelta(text: string)
    | TextFinal(text: string)
    | PlaybackFormat
    | PlaybackEnded
    | TurnCompleted
    | TurnInterrupted
    | NativeError
    | ReplyAudio(silent: bool)
    | Dispatch
    | CallOutput(call: Id)
    | TimerFires(k: nat)
    | AbortSignal(k: nat)
    | HandleClose

  /** `emit`: nothing is sent after close. */
  function Emit(s: State, e: Sent): (t: State)
    ensures t.calls == s.calls && t.pending == s.pending
  {
    if s.closed then s else s.(log := s.log + [e])
  }

  function Emit3(s: State, a: Sent, b: Sent, c: Sent): (t: State)
    ensures t.calls == s.calls && t.pending == s.pending
  {
    Emit(Emit(Emit(s, a), b), c)
  }

  function EnsureResponse(s: State): (t: State)
    ensures t.response.Some? && t.calls == s.calls && t.pending == s.pending
  {
    if s.response.Some? then s
    else
      var r := OpenResponse(s.counter + 1, s.counter + 2, false, []);
      Emit3(s.(response := Some(r), counter := s.counter + 2), Created(r.id), ItemAdded(r.id, r.item),
            PartAdded(r.id, r.item))
  }

  function CloseResponse(s: State, status: Status): (t: State)
    ensures t.calls == s.calls && t.pending == s.pending
  {
    if s.response.None? then s else Emit(s.(response := None), Done(s.response.value.id, status))
  }

  function EndAudio(s: State): (t: State)
    ensures t.calls == s.calls && t.pending == s.pending
  {
    if s.response.None? || s.response.value.audioDone then s
    else
      var r := s.response.value;
      Emit(s.(response := Some(r.(audioDone := true))), AudioDone(r.id, r.item))
  }

  /** `settlePendingCall`: resolves whichever call is pending and clears that call's own timer
      and listener. */
  function Settle(s: State): State {
    if s.pending.None? || s.pending.value >= |s.calls| then s
    else
      var k := s.pending.value;
      s.(pending := None, calls := s.calls[k := Call(s.calls[k].id, s.calls[k].resolved + 1, false, false)])
  }

  function TextDeltaStep(s: State, text: string): (t: State)
    ensures t.calls == s.calls && t.pending == s.pending
  {
    var t := EnsureResponse(s);
    var r := t.response.value;
    Emit(t.(response := Some(r.(transcript := r.transcript + text))), TranscriptDelta(r.id, r.item, text))
  }

  function CompleteStep(s: State): (t: State)
    ensures t.calls == s.calls && t.pending == s.pending
  {
    if s.response.None? then s
    else
      var t := EndAudio(s);
      var r := s.response.value;
      CloseResponse(Emit(Emit(t, PartDone(r.id, r.item, r.transcript)), ItemDone(r.id, r.item)), Completed)
  }

  /** The events that announce a function call, the last one apart. */
  function Announced(s: State, r: Id, item: Id, call: Id): (t: State)
    ensures t.calls == s.calls && t.pending == s.pending
  {
    Emit3(s, CallAdded(r, item, call), CallDelta(r, item, call), CallArgumentsDone(r, item, call))
  }

  /** The function call is the response's output; its promise becomes the pending one. */
  function CallStep(s: State): (t: State)
    requires s.response.Some?
    ensures t.pending == Some(|s.calls|) && |t.calls| == |s.calls| + 1 && t.calls[..|s.calls|] == s.calls
    ensures t.calls[|s.calls|] == Call(s.counter + 1, 0, true, true)
  {
    var r, call, item := s.response.value.id, s.counter + 1, s.counter + 2;
    var t := Emit(Announced(s.(counter := s.counter + 2), r, item, call), CallItemDone(r, item, call));
    CloseResponse(t, Completed).(pending := Some(|s.calls|), calls := s.calls + [Call(call, 0, true, true)])
  }

  function DispatchStep(s: State): (t: State)
    ensures t.pending == Some(|s.calls|) && |t.calls| == |s.calls| + 1 && t.calls[..|s.calls|] == s.calls
    ensures t.calls[|s.calls|].resolved == 0 && t.calls[|s.calls|].timer && t.calls[|s.calls|].listener
  {
    CallStep(EnsureResponse(s))
  }

  /** The two native events an accepted call output is turned into. */
  function Acknowledged(s: State): (t: State)
    ensures t.calls == s.calls && t.pending == s.pending
  {
    Emit(Emit(s.(counter := s.counter + 1), OutsideResponse), OutsideResponse)
  }

  function TimerGone(s: State, k: nat): State
    requires k < |s.calls|
  {
    s.(calls := s.calls[k := s.calls[k].(timer := false)])
  }

  function ListenerGone(s: State, k: nat): State
    requires k < |s.calls|
  {
    s.(calls := s.calls[k := s.calls[k].(listener := false)])
  }

  function Step(s: State, e: Event): State {
    match e
    case TurnStarted => Emit(s.(turn := true, counter := s.counter + 1), OutsideResponse)
    case VadEnd => if s.turn then Emit(Emit(Emit(s, OutsideResponse), OutsideResponse), OutsideResponse) else s
    case TranscriptFinal => if s.turn then Emit(s, OutsideResponse) else s
    case TextDelta(text) => TextDeltaStep(s, text)
    case TextFinal(text) =>
      if s.response.None? then s else Emit(s, TranscriptDone(s.response.value.id, s.response.value.item, text))
    case PlaybackFormat => s.(resampler := true)
    case PlaybackEnded => EndAudio(s)
    case TurnCompleted => CompleteStep(s)
    case TurnInterrupted => CloseResponse(s, Cancelled)
    case NativeError => Emit(s, OutsideResponse)
    case ReplyAudio(silent) =>
      if !s.resampler || s.closed then s
      else
        var t := EnsureResponse(s);
        if silent then t else Emit(t, AudioDelta(t.response.value.id, t.response.value.item))
    case Dispatch => DispatchStep(s)
    case CallOutput(call) =>
      if s.pending.None? || s.pending.value >= |s.calls| || s.calls[s.pending.value].id != call then
        Emit(s, OutsideResponse)
      else Settle(Acknowledged(s))
    case TimerFires(k) =>
      if k < |s.calls| && s.calls[k].timer then Settle(TimerGone(s, k)) else s
    case AbortSignal(k) =>
      if k < |s.calls| && s.calls[k].listener then Settle(ListenerGone(s, k)) else s
    case HandleClose => if s.closed then s else Settle(s.(closed := true))
  }

  function Run(events: seq<Event>): State {
    if events == [] then FRESH else Step(Run(events[..|events| - 1]), events[|events| - 1])
  }

  // ----- the stream stays on the grammar -----

  /** While the connection is open the stream stands where the adapter does. */
  ghost predicate InStep(s: State) {
    && (s.closed ==> Parse(s.log) != OffGrammar)
    && (!s.closed ==>
          match s.response
          case None => Parse(s.log).Between? && Parse(s.log).last <= s.counter
          case Some(r) => Parse(s.log) == Inside(r.id, r.item, r.audioDone, r.transcript) && r.id <= s.counter)
  }

  lemma EmitParses(s: State, e: Sent)
    ensures !s.closed ==> Parse(Emit(s, e).log) == Next(Parse(s.log), e)
    ensures s.closed ==> Emit(s, e) == s
    ensures Emit(s, e) == s.(log := Emit(s, e).log)
  {
    ParseOneMore(s.log, e);
  }

  lemma Emit3Parses(s: State, a: Sent, b: Sent, c: Sent)
    ensures !s.closed ==> Parse(Emit3(s, a, b, c).log) == Next(Next(Next(Parse(s.log), a), b), c)
    ensures s.closed ==> Emit3(s, a, b, c) == s
    ensures Emit3(s, a, b, c) == s.(log := Emit3(s, a, b, c).log)
  {
    EmitParses(s, a);
    EmitParses(Emit(s, a), b);
    EmitParses(Emit(Emit(s, a), b), c);
  }

  lemma OutsideKeeps(s: State)
    requires InStep(s)
    ensures InStep(Emit(s, OutsideResponse))
  {
    EmitParses(s, OutsideResponse);
  }

  lemma NowInside(s: State, r: OpenResponse)
    requires !s.closed && s.response == Some(r) && r.id <= s.counter
    requires Parse(s.log) == Inside(r.id, r.item, r.audioDone, r.transcript)
    ensures InStep(s)
  {
  }

  lemma NowBetween(s: State)
    requires !s.closed && s.response.None? && Parse(s.log).Between? && Parse(s.log).last <= s.counter
    ensures InStep(s)
  {
  }

  lemma OpeningSequence(p: Place, r: Id, i: Id)
    requires p.Between? && p.last < r
    ensures Next(Next(Next(p, Created(r)), ItemAdded(r, i)), PartAdded(r, i)) == Inside(r, i, false, [])
  {
  }

  lemma EnsureResponseKeeps(s: State)
    requires InStep(s)
    ensures InStep(EnsureResponse(s))
  {
    if s.response.None? {
      var r := OpenResponse(s.counter + 1, s.counter + 2, false, []);
      Emit3Parses(s.(response := Some(r), counter := s.counter + 2),
                  Created(r.id), ItemAdded(r.id, r.item), PartAdded(r.id, r.item));
      if !s.closed {
        OpeningSequence(Parse(s.log), r.id, r.item);
        NowInside(EnsureResponse(s), r);
      }
    }
  }

  lemma EndAudioKeeps(s: State)
    requires InStep(s)
    ensures InStep(EndAudio(s)) && EndAudio(s).closed == s.closed
    ensures s.response.Some? ==> EndAudio(s).response == Some(s.response.value.(audioDone := true))
  {
    if s.response.Some? {
      var r := s.response.value;
      EmitParses(s.(response := Some(r.(audioDone := true))), AudioDone(r.id, r.item));
    }
  }

  lemma TextDeltaKeeps(s: State, text: string)
    requires InStep(s)
    ensures InStep(TextDeltaStep(s, text))
  {
    EnsureResponseKeeps(s);
    var t := EnsureResponse(s);
    var r := t.response.value;
    EmitParses(t.(response := Some(r.(transcript := r.transcript + text))), TranscriptDelta(r.id, r.item, text));
  }

  /** An event that belongs to the open response and leaves it as it is. */
  lemma InsideEventKeeps(s: State, e: Sent)
    requires InStep(s) && s.response.Some?
    requires e == AudioDelta(s.response.value.id, s.response.value.item)
      || (e.TranscriptDone? && e.response == s.response.value.id && e.item == s.response.value.item)
    ensures InStep(Emit(s, e))
  {
    EmitParses(s, e);
  }

  lemma CompletingSequence(p: Place, r: OpenResponse)
    requires p == Inside(r.id, r.item, true, r.transcript)
    ensures Next(Next(Next(p, PartDone(r.id, r.item, r.transcript)), ItemDone(r.id, r.item)),
                 Done(r.id, Completed)) == Between(r.id)
  {
  }

  lemma CompleteKeeps(s: State)
    requires InStep(s)
    ensures InStep(CompleteStep(s))
  {
    if s.response.Some? {
      var r := s.response.value;
      EndAudioKeeps(s);
      var t := EndAudio(s);
      Emit3Parses(t, PartDone(r.id, r.item, r.transcript), ItemDone(r.id, r.item), Done(r.id, Completed));
      if !s.closed { CompletingSequence(Parse(t.log), r.(audioDone := true)); }
      assert CompleteStep(s)
          == Emit3(t, PartDone(r.id, r.item, r.transcript), ItemDone(r.id, r.item),
                   Done(r.id, Completed)).(response := None);
    }
  }

  lemma CallingSequence(p: Place, r: Id, i: Id, call: Id)
    requires p.Inside? && p.response == r
    ensures Next(Next(Next(p, CallAdded(r, i, call)), CallDelta(r, i, call)),
                 CallArgumentsDone(r, i, call)) == Calling(r, i, call, 2)
    ensures Next(Next(Calling(r, i, call, 2), CallItemDone(r, i, call)), Done(r, Completed)) == Between(r)
  {
  }

  lemma AnnouncedParses(s: State, r: Id, item: Id, call: Id)
    requires InStep(s) && s.response.Some? && r == s.response.value.id && !s.closed
    ensures var t := Announced(s, r, item, call);
      Parse(t.log) == Calling(r, item, call, 2) && t == s.(log := t.log)
  {
    Emit3Parses(s, CallAdded(r, item, call), CallDelta(r, item, call), CallArgumentsDone(r, item, call));
    CallingSequence(Parse(s.log), r, item, call);
  }

  /** The response that carried a call is closed by it. */
  lemma CallClosesKeeps(s: State, r: Id, item: Id, call: Id)
    requires !s.closed && s.response.Some? && r == s.response.value.id <= s.counter
    requires Parse(s.log) == Calling(r, item, call, 2)
    ensures InStep(CloseResponse(Emit(s, CallItemDone(r, item, call)), Completed))
  {
    EmitParses(s, CallItemDone(r, item, call));
    CompletedKeeps(Emit(s, CallItemDone(r, item, call)), r);
  }

  lemma CompletedKeeps(s: State, r: Id)
    requires !s.closed && s.response.Some? && r == s.response.value.id <= s.counter
    requires Parse(s.log) == ItemClosed(r)
    ensures InStep(CloseResponse(s, Completed))
  {
    EmitParses(s.(response := None), Done(r, Completed));
    NowBetween(CloseResponse(s, Completed));
  }

  lemma DispatchKeeps(s: State)
    requires InStep(s)
    ensures InStep(DispatchStep(s))
  {
    EnsureResponseKeeps(s);
    var t := EnsureResponse(s);
    var r, call, item := t.response.value.id, t.counter + 1, t.counter + 2;
    var a := t.(counter := t.counter + 2);
    if !t.closed {
      AnnouncedParses(a, r, item, call);
      var b := Announced(a, r, item, call);
      CallClosesKeeps(b, r, item, call);
      CallsDoNotMatter(CloseResponse(Emit(b, CallItemDone(r, item, call)), Completed), DispatchStep(s));
    }
  }

  lemma CallsDoNotMatter(s: State, t: State)
    requires InStep(s) && t == s.(pending := t.pending, calls := t.calls, closed := t.closed)
    requires s.closed ==> t.closed
    ensures InStep(t)
  {
  }

  lemma InterruptKeeps(s: State)
    requires InStep(s)
    ensures InStep(CloseResponse(s, Cancelled))
  {
    if s.response.Some? { EmitParses(s.(response := None), Done(s.response.value.id, Cancelled)); }
  }

  lemma AcknowledgedKeeps(s: State)
    requires InStep(s)
    ensures InStep(Acknowledged(s))
  {
    var t := s.(counter := s.counter + 1);
    OutsideKeeps(t);
    OutsideKeeps(Emit(t, OutsideResponse));
  }

  lemma CallOutputKeeps(s: State, call: Id)
    requires InStep(s)
    ensures InStep(Step(s, CallOutput(call)))
  {
    OutsideKeeps(s);
    AcknowledgedKeeps(s);
    CallsDoNotMatter(Acknowledged(s), Settle(Acknowledged(s)));
  }

  lemma VadEndKeeps(s: State)
    requires InStep(s)
    ensures InStep(Step(s, VadEnd))
  {
    OutsideKeeps(s);
    OutsideKeeps(Emit(s, OutsideResponse));
    OutsideKeeps(Emit(Emit(s, OutsideResponse), OutsideResponse));
  }

  lemma ReplyAudioKeeps(s: State, silent: bool)
    requires InStep(s)
    ensures InStep(Step(s, ReplyAudio(silent)))
  {
    var t := EnsureResponse(s);
    EnsureResponseKeeps(s);
    InsideEventKeeps(t, AudioDelta(t.response.value.id, t.response.value.item));
  }

  lemma CallEventKeeps(s: State, e: Event)
    requires InStep(s)
    requires e.Dispatch? || e.CallOutput? || e.TimerFires? || e.AbortSignal? || e.HandleClose?
    ensures InStep(Step(s, e))
  {
    hide InStep, DispatchStep;
    match e
    case Dispatch => DispatchKeeps(s);
    case CallOutput(call) => CallOutputKeeps(s, call);
    case _ => CallsDoNotMatter(s, Step(s, e));
  }

  lemma StepKeeps(s: State, e: Event)
    requires InStep(s)
    ensures InStep(Step(s, e))
  {
    match e
    case TurnStarted => OutsideKeeps(s.(turn := true, counter := s.counter + 1));
    case VadEnd => VadEndKeeps(s);
    case TranscriptFinal => OutsideKeeps(s);
    case TextDelta(text) => TextDeltaKeeps(s, text);
    case TextFinal(text) =>
      if s.response.Some? { InsideEventKeeps(s, TranscriptDone(s.response.value.id, s.response.value.item, text)); }
    case PlaybackFormat =>
    case PlaybackEnded => EndAudioKeeps(s);
    case TurnCompleted => CompleteKeeps(s);
    case TurnInterrupted => InterruptKeeps(s);
    case NativeError => OutsideKeeps(s);
    case ReplyAudio(silent) => ReplyAudioKeeps(s, silent);
    case _ => CallEventKeeps(s, e);
  }

  /** Whatever the interleaving, the stream the client receives is on the grammar. */
  lemma {:induction false} StreamIsOnGrammar(events: seq<Event>)
    ensures InStep(Run(events)) && Parse(Run(events).log) != OffGrammar
    decreases |events|
  {
    if events == [] {
      assert FRESH.log == [] + [OutsideResponse];
      ParseOneMore([], OutsideResponse);
    } else {
      StreamIsOnGrammar(events[..|events| - 1]);
      StepKeeps(Run(events[..|events| - 1]), events[|events| - 1]);
    }
  }

  // ----- who resolves a call -----

  /** Every call but the pending one was resolved, once; the pending one, and it alone, has its
      timer and its listener. */
  ghost predicate CallsOk(s: State) {
    && (s.pending.Some? ==> s.pending.value < |s.calls|)
    && forall k :: 0 <= k < |s.calls| ==>
         if s.pending == Some(k) then s.calls[k].resolved == 0 && s.calls[k].timer && s.calls[k].listener
         else s.calls[k].resolved == 1 && !s.calls[k].timer && !s.calls[k].listener
  }

  lemma SettleKeeps(s: State, t: State)
    requires CallsOk(s) && t.pending == s.pending && |t.calls| == |s.calls|
    requires forall k :: 0 <= k < |s.calls| ==>
      t.calls[k].resolved == s.calls[k].resolved
      && (t.calls[k].timer ==> s.calls[k].timer) && (t.calls[k].listener ==> s.calls[k].listener)
    ensures CallsOk(Settle(t))
    ensures Settle(t).pending.None?
    ensures s.pending.Some? ==> Settle(t).calls[s.pending.value].resolved == 1
  {
  }

  lemma DispatchKeepsIff(s: State)
    requires CallsOk(s)
    ensures CallsOk(DispatchStep(s)) <==> s.pending.None?
  {
    var t := DispatchStep(s);
    assert |t.calls| == |s.calls| + 1 && t.pending == Some(|s.calls|);
    if s.pending.Some? { assert t.calls[s.pending.value] == s.calls[s.pending.value]; }
  }

  lemma OtherEventsLeaveCalls(s: State, e: Event)
    requires !e.Dispatch? && !e.CallOutput? && !e.TimerFires? && !e.AbortSignal? && !e.HandleClose?
    ensures Step(s, e).calls == s.calls && Step(s, e).pending == s.pending
  {
  }

  /** A step keeps the books straight exactly when it does not dispatch over a pending call. */
  lemma CallsKeptIff(s: State, e: Event)
    requires CallsOk(s)
    ensures CallsOk(Step(s, e)) <==> !(e.Dispatch? && s.pending.Some?)
  {
    match e
    case Dispatch => DispatchKeepsIff(s);
    case CallOutput(_) => SettleKeeps(s, Acknowledged(s));
    case TimerFires(k) => if k < |s.calls| && s.calls[k].timer { SettleKeeps(s, TimerGone(s, k)); }
    case AbortSignal(k) => if k < |s.calls| && s.calls[k].listener { SettleKeeps(s, ListenerGone(s, k)); }
    case HandleClose => SettleKeeps(s, s.(closed := true));
    case _ => OtherEventsLeaveCalls(s, e);
  }

  ghost predicate OneAtATime(events: seq<Event>) {
    events != [] ==>
      var before := events[..|events| - 1];
      OneAtATime(before) && !(events[|events| - 1].Dispatch? && Run(before).pending.Some?)
  }

  /** With one call outstanding at a time, each is resolved exactly once — by its output, its
      timer, the abort of its turn or the close of the connection — unless it is still pending. */
  lemma {:induction false} CallsResolveOnce(events: seq<Event>)
    requires OneAtATime(events)
    ensures CallsOk(Run(events))
    decreases |events|
  {
    if events != [] {
      CallsResolveOnce(events[..|events| - 1]);
      CallsKeptIff(Run(events[..|events| - 1]), events[|events| - 1]);
    }
  }

  /** What resolves call `k` while it is the pending one. */
  predicate Resolves(s: State, k: nat, e: Event)
    requires k < |s.calls|
  {
    e == CallOutput(s.calls[k].id) || e == TimerFires(k) || e == AbortSignal(k) || (e.HandleClose? && !s.closed)
  }

  lemma PendingCallResolves(s: State, k: nat, e: Event)
    requires CallsOk(s) && s.pending == Some(k) && Resolves(s, k, e)
    ensures |Step(s, e).calls| == |s.calls| && Step(s, e).calls[k].resolved == 1 && Step(s, e).pending.None?
  {
    match e
    case CallOutput(_) => SettleKeeps(s, Acknowledged(s));
    case TimerFires(_) => SettleKeeps(s, TimerGone(s, k));
    case AbortSignal(_) => SettleKeeps(s, ListenerGone(s, k));
    case HandleClose => SettleKeeps(s, s.(closed := true));
  }

  /** A pending call cannot be left hanging: its timer and its listener are still set, and its own
      output, its timer, its abort and the close of the connection each resolve it. */
  lemma PendingCallCanResolve(events: seq<Event>, e: Event)
    requires OneAtATime(events) && Run(events).pending.Some?
    ensures var s := Run(events); var k := s.pending.value;
      && k < |s.calls| && s.calls[k].timer && s.calls[k].listener
      && (Resolves(s, k, e) ==> |Step(s, e).calls| == |s.calls| && Step(s, e).calls[k].resolved == 1)
  {
    CallsResolveOnce(events);
    var s := Run(events);
    if Resolves(s, s.pending.value, e) { PendingCallResolves(s, s.pending.value, e); }
  }

  lemma TimerSettlesPending(s: State, k: nat)
    requires k < |s.calls| && s.calls[k].timer && s.pending.Some? && s.pending.value < |s.calls| && s.pending.value != k
    ensures var t := Step(s, TimerFires(k)); var p := s.pending.value;
      |t.calls| == |s.calls| && t.calls[k].resolved == s.calls[k].resolved
      && t.calls[p].resolved == s.calls[p].resolved + 1 && t.pending.None?
  {
  }

  lemma Dispatches(s: State)
    ensures Step(s, Dispatch) == DispatchStep(s)
  {
  }

  lemma TwoOutstanding()
    ensures var s := Run([Dispatch, Dispatch]);
      && |s.calls| == 2 && s.calls[0].timer && s.calls[0].resolved == 0 && s.calls[1].resolved == 0
      && s.pending == Some(1)
  {
    hide Step, DispatchStep;
    assert [Dispatch][..0] == [] && [Dispatch, Dispatch][..1] == [Dispatch];
    var s1, s2 := Run([Dispatch]), Run([Dispatch, Dispatch]);
    Dispatches(FRESH);
    Dispatches(s1);
    assert s2.calls[0] == s2.calls[..1][0];
  }

  /** With two outstanding, the first one's timer resolves the second, and the first is never
      resolved at all. */
  lemma OverlappingCallsCross()
    ensures var s := Run([Dispatch, Dispatch, TimerFires(0)]);
      s.calls[0].resolved == 0 && s.calls[1].resolved == 1 && s.pending.None?
  {
    hide Step;
    assert [Dispatch, Dispatch, TimerFires(0)][..2] == [Dispatch, Dispatch];
    TwoOutstanding();
    TimerSettlesPending(Run([Dispatch, Dispatch]), 0);
  }
}
