/** An undisturbed recording becomes ready (apps/realtime-gateway/src/media-store.ts:303-469): what was
    spoken or played while the store was idle and had room is there afterwards, byte for byte. */
module MediaRetention {
  import opened Prelude
  import opened MediaStore
  import opened MediaEviction

  /** Nothing is queued, and `bytes` more fit the queue and the ceiling. */
  predicate IdleWithRoom(c: Config, s: State, bytes: nat) {
    && !s.closing && s.work == [] && s.phase == Idle
    && s.queuedBytes + bytes <= c.maxPendingBytes
    && (c.maxBytes.Some? ==> s.readyBytes + s.reservedBytes + bytes <= c.maxBytes.value)
  }

  ghost predicate NoRowFor(assets: seq<Asset>, key: Key) {
    forall k :: 0 <= k < |assets| && assets[k].row != Absent ==> assets[k].key != key
  }

  lemma InsertsLast(assets: seq<Asset>, a: Asset, row: Row)
    requires NoRowFor(assets, a.key) && a.row == Absent
    ensures Insert(assets + [a], |assets|, row) == assets + [a.(row := row, rowBytes := 0)]
  {
  }

  /** The capacity check passes at once. */
  lemma CheckPasses(c: Config, s: State, candidates: seq<Session>, begin: set<Session>, assets: seq<Asset>, a: Asset)
    requires s.assets == assets + [a] && !OverCeiling(c, s)
    ensures CheckFor(c, s, |assets|, candidates, begin)
         == s.(assets := assets + [a.(checked := HeldBytes(a))], phase := Answered(true))
  {
    ScanAnswers(c, s, candidates, begin);
  }

  // ----- an utterance -----

  function Utterance(key: Key, row: Row, bytes: nat, rowBytes: nat, released: bool, checked: nat): Asset {
    Asset(Input, key, row, rowBytes, false, true, false, 0, bytes, true, released, checked)
  }

  lemma InputStarts(c: Config, s: State, key: Key, bytes: nat, candidates: seq<Session>, begin: set<Session>)
    requires IdleWithRoom(c, s, bytes) && NoRowFor(s.assets, key)
    ensures var t := RetainInput(c, s, key, bytes);
      t.work == [InputOp(|s.assets|, bytes, true)] && t.phase == Idle
      && Start(c, t, candidates, begin)
         == t.(assets := s.assets + [Utterance(key, Pending, bytes, 0, false, bytes)], phase := Answered(true))
  {
    var t := RetainInput(c, s, key, bytes);
    var a := Utterance(key, Absent, bytes, 0, false, 0);
    assert t.assets == s.assets + [a] && t.work == [InputOp(|s.assets|, bytes, true)];
    InsertsLast(s.assets, a, Pending);
    var u := t.(assets := s.assets + [a.(row := Pending)]);
    CheckPasses(c, u, candidates, begin, s.assets, a.(row := Pending));
  }

  lemma InputEnds(c: Config, s: State, t: State, key: Key, bytes: nat, begin: set<Session>)
    requires s.work == [] && s.phase == Idle
    requires t == State(s.queuedBytes + bytes, s.reservedBytes + bytes, s.readyBytes, s.closing,
                        s.assets + [Utterance(key, Pending, bytes, 0, false, bytes)],
                        [InputOp(|s.assets|, bytes, true)], Answered(true))
    ensures var u := t.(phase := Writing);
      Resume(c, t, Done, begin) == u
      && Resume(c, u, Done, begin)
         == s.(readyBytes := s.readyBytes + bytes,
               assets := s.assets + [Utterance(key, Ready, bytes, bytes, true, bytes)])
  {
  }

  /** An utterance given to an idle store with room becomes ready with all its bytes, and nothing else
      changes. */
  lemma InputBecomesReady(c: Config, s: State, key: Key, bytes: nat, candidates: seq<Session>, begin: set<Session>)
    requires IdleWithRoom(c, s, bytes) && NoRowFor(s.assets, key)
    ensures Run(c, s, [] + [ToRetainInput(key, bytes)] + [ToStart(candidates, begin)]
                      + [ToResume(Done, begin)] + [ToResume(Done, begin)])
         == s.(readyBytes := s.readyBytes + bytes,
               assets := s.assets + [Utterance(key, Ready, bytes, bytes, true, bytes)])
  {
    var start := ToStart(candidates, begin);
    RunOfFour(c, s, [], ToRetainInput(key, bytes), start, ToResume(Done, begin), ToResume(Done, begin));
    InputStarts(c, s, key, bytes, candidates, begin);
    var t := RetainInput(c, s, key, bytes);
    var u := t.(assets := s.assets + [Utterance(key, Pending, bytes, 0, false, bytes)], phase := Answered(true));
    InputEnds(c, s, u, key, bytes, begin);
  }

  // ----- a recording -----

  function Own(n: nat): nat {
    n
  }

  /** The samples of the frames. */
  function Samples(frames: seq<nat>): nat {
    Sum(Own, frames)
  }

  function Recording(key: Key, row: Row, rate: int, bytes: nat, finalized: bool): Asset {
    Asset(Output, key, row, 0, false, true, true, rate, bytes, finalized, false, 0)
  }

  function FrameOps(id: nat, frames: seq<nat>): seq<Op> {
    seq(|frames|, k requires 0 <= k < |frames| => FrameOp(id, 2 * frames[k]))
  }

  /** After the writes: the header and the frames are promised and queued. */
  function Written(s: State, key: Key, rate: int, frames: seq<nat>): State {
    var bytes := 2 * Samples(frames);
    State(s.queuedBytes + 44 + bytes, s.reservedBytes + 44 + bytes, s.readyBytes, false,
          s.assets + [Recording(key, Absent, rate, bytes, false)],
          [InitOp(|s.assets|, 44)] + FrameOps(|s.assets|, frames), Idle)
  }

  lemma FirstWrite(c: Config, s: State, key: Key, rate: int, samples: nat)
    requires IdleWithRoom(c, s, 44 + 2 * samples) && samples > 0 && rate > 0
    ensures Write(c, NewRecorder(s, key), |s.assets|, samples, rate) == Written(s, key, rate, [samples])
  {
    SumAppend(Own, [], samples);
    assert [] + [samples] == [samples];
    var t := EnsureRow(c, NewRecorder(s, key), |s.assets|, rate);
    assert t == State(s.queuedBytes + 44, s.reservedBytes + 44, s.readyBytes, false,
                      s.assets + [Recording(key, Absent, rate, 0, false)], [InitOp(|s.assets|, 44)], Idle);
    assert FrameOps(|s.assets|, [samples]) == [FrameOp(|s.assets|, 2 * samples)];
  }

  lemma NextWrite(c: Config, s: State, key: Key, rate: int, frames: seq<nat>, samples: nat)
    requires IdleWithRoom(c, s, 44 + 2 * Samples(frames + [samples])) && samples > 0 && rate > 0
    ensures Write(c, Written(s, key, rate, frames), |s.assets|, samples, rate)
         == Written(s, key, rate, frames + [samples])
  {
    SumAppend(Own, frames, samples);
    var id := |s.assets|;
    assert FrameOps(id, frames + [samples]) == FrameOps(id, frames) + [FrameOp(id, 2 * samples)];
    assert [InitOp(id, 44)] + FrameOps(id, frames) + [FrameOp(id, 2 * samples)]
        == [InitOp(id, 44)] + (FrameOps(id, frames) + [FrameOp(id, 2 * samples)]);
  }

  /** The recording being drained: its row is there and every frame passed. */
  function Draining(s: State, key: Key, rate: int, bytes: nat, queued: nat, work: seq<Op>): State {
    State(s.queuedBytes + queued, s.reservedBytes + 44 + bytes, s.readyBytes, false,
          s.assets + [Recording(key, Pending, rate, bytes, true).(checked := 44 + bytes)], work, Idle)
  }

  function Ending(id: nat, frames: seq<nat>): seq<Op> {
    FrameOps(id, frames) + [FinalizeOp(id)]
  }

  lemma FinalizeQueues(s: State, key: Key, rate: int, frames: seq<nat>)
    ensures var t, id := Written(s, key, rate, frames), |s.assets|;
      Finalize(t, id) == t.(assets := s.assets + [Recording(key, Absent, rate, 2 * Samples(frames), true)],
                            work := [InitOp(id, 44)] + Ending(id, frames))
  {
    var id := |s.assets|;
    assert [InitOp(id, 44)] + FrameOps(id, frames) + [FinalizeOp(id)] == [InitOp(id, 44)] + Ending(id, frames);
  }

  lemma RunLast(c: Config, s: State, t: State, events: seq<Event>, before: seq<Event>, e: Event)
    requires events == before + [e] && t == Run(c, s, before)
    ensures Run(c, s, events) == Step(c, t, e)
  {
    RunStep(c, s, before, e);
  }

  lemma {:induction false} RunOn(c: Config, s: State, t: State, a: seq<Event>, b: seq<Event>)
    requires t == Run(c, s, a)
    ensures Run(c, s, a + b) == Run(c, t, b)
    decreases |b|
  {
    hide Step;
    if b == [] {
      assert a + b == a;
    } else {
      var before, e := b[..|b| - 1], b[|b| - 1];
      RunOn(c, s, t, a, before);
      var u := Run(c, t, before);
      RunLast(c, s, u, a + b, a + before, e);
      RunLast(c, t, u, b, before, e);
    }
  }

  /** Segments of the queue alone, and whatever they await succeeds. */
  ghost predicate Undisturbed(events: seq<Event>, candidates: seq<Session>, begin: set<Session>) {
    forall k :: 0 <= k < |events| ==> events[k] == ToStart(candidates, begin) || events[k] == ToResume(Done, begin)
  }

  lemma RunOfTwo(c: Config, s: State, e1: Event, e2: Event)
    ensures Run(c, s, [e1, e2]) == Step(c, Step(c, s, e1), e2)
  {
    hide Step;
    RunStep(c, s, [], e1);
    RunStep(c, s, [e1], e2);
    assert [] + [e1] == [e1] && [e1] + [e2] == [e1, e2];
  }

  lemma RunOfThree(c: Config, s: State, e1: Event, e2: Event, e3: Event)
    ensures Run(c, s, [e1, e2, e3]) == Step(c, Step(c, Step(c, s, e1), e2), e3)
  {
    hide Step;
    RunStep(c, s, [], e1);
    RunStep(c, s, [e1], e2);
    RunStep(c, s, [e1, e2], e3);
    assert [] + [e1] == [e1] && [e1] + [e2] == [e1, e2] && [e1, e2] + [e3] == [e1, e2, e3];
  }

  lemma RowIsInserted(c: Config, s: State, key: Key, rate: int, bytes: nat, work: seq<Op>,
                      candidates: seq<Session>, begin: set<Session>)
    returns (events: seq<Event>)
    requires IdleWithRoom(c, s, 44 + bytes) && NoRowFor(s.assets, key)
    requires work != [] && work[0] == InitOp(|s.assets|, 44)
    ensures Undisturbed(events, candidates, begin)
    ensures var t := State(s.queuedBytes + 44 + bytes, s.reservedBytes + 44 + bytes, s.readyBytes, false,
                           s.assets + [Recording(key, Absent, rate, bytes, true)], work, Idle);
      Run(c, t, events) == Draining(s, key, rate, bytes, bytes, work[1..])
  {
    events := [ToStart(candidates, begin), ToResume(Done, begin), ToResume(Done, begin)];
    var t := State(s.queuedBytes + 44 + bytes, s.reservedBytes + 44 + bytes, s.readyBytes, false,
                   s.assets + [Recording(key, Absent, rate, bytes, true)], work, Idle);
    hide Run, Step;
    var a := Recording(key, Pending, rate, bytes, true).(checked := 44 + bytes);
    RunOfThree(c, t, ToStart(candidates, begin), ToResume(Done, begin), ToResume(Done, begin));
    RowStarts(c, s, t, key, rate, bytes, candidates, begin);
    PassedHeadFinishes(c, t.(assets := s.assets + [a], phase := Answered(true)), begin);
  }

  /** The row is inserted and the header's check passes. */
  lemma RowStarts(c: Config, s: State, t: State, key: Key, rate: int, bytes: nat,
                  candidates: seq<Session>, begin: set<Session>)
    requires IdleWithRoom(c, s, 44 + bytes) && NoRowFor(s.assets, key)
    requires t.work != [] && t.work[0] == InitOp(|s.assets|, 44) && t.phase == Idle
    requires t.assets == s.assets + [Recording(key, Absent, rate, bytes, true)]
    requires t.readyBytes == s.readyBytes && t.reservedBytes == s.reservedBytes + 44 + bytes
    ensures var a := Recording(key, Pending, rate, bytes, true).(checked := 44 + bytes);
      Step(c, t, ToStart(candidates, begin)) == t.(assets := s.assets + [a], phase := Answered(true))
  {
    var a := Recording(key, Absent, rate, bytes, true);
    InsertsLast(s.assets, a, Pending);
    var u := t.(assets := s.assets + [a.(row := Pending)]);
    CheckPasses(c, u, candidates, begin, s.assets, a.(row := Pending));
  }

  /** A passed head that only appends to its file is done with the next two segments. */
  lemma PassedHeadFinishes(c: Config, s: State, begin: set<Session>)
    requires s.phase == Answered(true) && s.work != [] && Applies(s.assets, s.work[0])
    requires s.work[0].InitOp? || s.work[0].FrameOp?
    ensures Step(c, Step(c, s, ToResume(Done, begin)), ToResume(Done, begin)) == Finished(s)
  {
    assert Step(c, s, ToResume(Done, begin)) == s.(phase := Writing);
  }

  lemma FrameIsAppended(c: Config, s: State, key: Key, rate: int, bytes: nat, queued: nat, frames: seq<nat>,
                        candidates: seq<Session>, begin: set<Session>)
    returns (events: seq<Event>)
    requires IdleWithRoom(c, s, 44 + bytes) && frames != []
    ensures Undisturbed(events, candidates, begin)
    ensures var id := |s.assets|;
      Run(c, Draining(s, key, rate, bytes, queued + 2 * frames[0], Ending(id, frames)), events)
      == Draining(s, key, rate, bytes, queued, Ending(id, frames[1..]))
  {
    events := [ToStart(candidates, begin), ToResume(Done, begin), ToResume(Done, begin)];
    var id, a := |s.assets|, Recording(key, Pending, rate, bytes, true).(checked := 44 + bytes);
    var t := Draining(s, key, rate, bytes, queued + 2 * frames[0], Ending(id, frames));
    assert Ending(id, frames)[1..] == Ending(id, frames[1..]);
    CheckPasses(c, t, candidates, begin, s.assets, a);
    var u := t.(phase := Answered(true));
    assert Step(c, t, ToStart(candidates, begin)) == u;
    RunOfThree(c, t, ToStart(candidates, begin), ToResume(Done, begin), ToResume(Done, begin));
    PassedHeadFinishes(c, u, begin);
  }

  lemma {:induction false} FramesAreAppended(c: Config, s: State, key: Key, rate: int, bytes: nat, frames: seq<nat>,
                                             candidates: seq<Session>, begin: set<Session>)
    returns (events: seq<Event>)
    requires IdleWithRoom(c, s, 44 + bytes)
    ensures Undisturbed(events, candidates, begin)
    ensures Run(c, Draining(s, key, rate, bytes, 2 * Samples(frames), Ending(|s.assets|, frames)), events)
         == Draining(s, key, rate, bytes, 0, [FinalizeOp(|s.assets|)])
    decreases |frames|
  {
    hide Step;
    if frames == [] {
      events := [];
      assert Ending(|s.assets|, frames) == [FinalizeOp(|s.assets|)];
    } else {
      SumTail(Own, frames);
      var rest := frames[1..];
      var first := FrameIsAppended(c, s, key, rate, bytes, 2 * Samples(rest), frames, candidates, begin);
      var more := FramesAreAppended(c, s, key, rate, bytes, rest, candidates, begin);
      var t := Draining(s, key, rate, bytes, 2 * Samples(frames), Ending(|s.assets|, frames));
      var u := Draining(s, key, rate, bytes, 2 * Samples(rest), Ending(|s.assets|, rest));
      RunOn(c, t, u, first, more);
      events := first + more;
    }
  }

  /** What an undisturbed recording leaves. */
  function Recorded(s: State, key: Key, rate: int, bytes: nat): State {
    var a := Recording(key, Ready, rate, bytes, true);
    s.(readyBytes := s.readyBytes + 44 + bytes,
       assets := s.assets + [a.(rowBytes := 44 + bytes, released := true, checked := 44 + bytes)])
  }

  lemma RecordingIsCommitted(c: Config, s: State, key: Key, rate: int, bytes: nat,
                             candidates: seq<Session>, begin: set<Session>)
    returns (events: seq<Event>)
    requires IdleWithRoom(c, s, 44 + bytes)
    ensures Undisturbed(events, candidates, begin)
    ensures Run(c, Draining(s, key, rate, bytes, 0, [FinalizeOp(|s.assets|)]), events) == Recorded(s, key, rate, bytes)
  {
    hide Run;
    var t := Draining(s, key, rate, bytes, 0, [FinalizeOp(|s.assets|)]);
    var e1, e2 := ToStart(candidates, begin), ToResume(Done, begin);
    RunOfTwo(c, t, e1, e2);
    events := [e1, e2];
    var u := t.(phase := Writing);
    assert Step(c, t, e1) == u;
    assert Step(c, u, e2) == Recorded(s, key, rate, bytes);
  }

  function Writes(id: nat, rate: int, frames: seq<nat>): seq<Event> {
    seq(|frames|, k requires 0 <= k < |frames| => ToWrite(id, frames[k], rate))
  }

  lemma {:induction false} FramesAreWritten(c: Config, s: State, key: Key, rate: int, frames: seq<nat>)
    requires frames != [] && (forall k :: 0 <= k < |frames| ==> frames[k] > 0) && rate > 0
    requires IdleWithRoom(c, s, 44 + 2 * Samples(frames))
    ensures Run(c, NewRecorder(s, key), Writes(|s.assets|, rate, frames)) == Written(s, key, rate, frames)
    decreases |frames|
  {
    var n, id := |frames| - 1, |s.assets|;
    var before := frames[..n];
    assert frames == before + [frames[n]];
    assert Writes(id, rate, frames) == Writes(id, rate, before) + [ToWrite(id, frames[n], rate)];
    SumAppend(Own, before, frames[n]);
    RunStep(c, NewRecorder(s, key), Writes(id, rate, before), ToWrite(id, frames[n], rate));
    if n == 0 {
      assert Writes(id, rate, before) == [] && frames == [frames[0]];
      FirstWrite(c, s, key, rate, frames[0]);
    } else {
      FramesAreWritten(c, s, key, rate, before);
      NextWrite(c, s, key, rate, before, frames[n]);
    }
  }

  /** A recording made in an idle store with room for its header and two bytes a sample becomes ready
      with exactly those bytes, and nothing else changes. */
  lemma RecordingBecomesReady(c: Config, s: State, key: Key, rate: int, frames: seq<nat>,
                              candidates: seq<Session>, begin: set<Session>)
    returns (drain: seq<Event>)
    requires frames != [] && (forall k :: 0 <= k < |frames| ==> frames[k] > 0) && rate > 0
    requires IdleWithRoom(c, s, 44 + 2 * Samples(frames)) && NoRowFor(s.assets, key)
    ensures Undisturbed(drain, candidates, begin)
    ensures var id := |s.assets|;
      Run(c, s, [ToNewRecorder(key)] + Writes(id, rate, frames) + [ToFinalize(id)] + drain)
      == Recorded(s, key, rate, 2 * Samples(frames))
  {
    var id, bytes := |s.assets|, 2 * Samples(frames);
    var written := [ToNewRecorder(key)] + Writes(id, rate, frames);
    RunStep(c, s, [], ToNewRecorder(key));
    assert [] + [ToNewRecorder(key)] == [ToNewRecorder(key)];
    RunOn(c, s, NewRecorder(s, key), [ToNewRecorder(key)], Writes(id, rate, frames));
    FramesAreWritten(c, s, key, rate, frames);
    RunStep(c, s, written, ToFinalize(id));
    FinalizeQueues(s, key, rate, frames);
    drain := RecordingIsDrained(c, s, key, rate, frames, candidates, begin);
    RunOn(c, s, Finalize(Written(s, key, rate, frames), id), written + [ToFinalize(id)], drain);
  }

  lemma RecordingIsDrained(c: Config, s: State, key: Key, rate: int, frames: seq<nat>,
                           candidates: seq<Session>, begin: set<Session>)
    returns (drain: seq<Event>)
    requires IdleWithRoom(c, s, 44 + 2 * Samples(frames)) && NoRowFor(s.assets, key)
    ensures Undisturbed(drain, candidates, begin)
    ensures Run(c, Finalize(Written(s, key, rate, frames), |s.assets|), drain)
         == Recorded(s, key, rate, 2 * Samples(frames))
  {
    hide Step;
    var id, bytes := |s.assets|, 2 * Samples(frames);
    var t := Finalize(Written(s, key, rate, frames), id);
    FinalizeQueues(s, key, rate, frames);
    var first := RowIsInserted(c, s, key, rate, bytes, [InitOp(id, 44)] + Ending(id, frames), candidates, begin);
    assert ([InitOp(id, 44)] + Ending(id, frames))[1..] == Ending(id, frames);
    var more := FramesAreAppended(c, s, key, rate, bytes, frames, candidates, begin);
    var last := RecordingIsCommitted(c, s, key, rate, bytes, candidates, begin);
    var u := Draining(s, key, rate, bytes, bytes, Ending(id, frames));
    RunOn(c, t, u, first, more);
    RunOn(c, t, Draining(s, key, rate, bytes, 0, [FinalizeOp(id)]), first + more, last);
    drain := first + more + last;
  }
}
