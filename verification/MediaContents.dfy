/** What the media store keeps of what it is given (apps/realtime-gateway/src/media-store.ts:303-471):
    the bytes of a ready recording, and that an undisturbed recording becomes ready. */
module MediaContents {
  import opened Prelude
  import opened MediaStore
  import opened MediaEviction

  // ----- what a callback accepts -----

  /** The header a first write reserves, if it fits. */
  function FirstHeader(c: Config, s: State): nat {
    if s.queuedBytes + 44 <= c.maxPendingBytes then 44 else 0
  }

  /** A write of `samples` at `rate` is accepted: the recorder is open and has not failed, the rate
      is that of the recording, and two bytes a sample fit the queue beside the header. A recording
      whose header does not fit has failed, but a first frame that fits is still taken in. */
  predicate Accepts(c: Config, s: State, id: nat, samples: nat, rate: int) {
    && IsRecorder(s, id) && !s.closing && samples > 0 && rate > 0
    && var a := s.assets[id];
       && !a.finalized && !a.failed && (a.initialized ==> a.sampleRate == rate)
       && s.queuedBytes + (if a.initialized then 0 else FirstHeader(c, s)) + 2 * samples <= c.maxPendingBytes
  }

  /** A write adds two bytes a sample to its own recording if it is accepted, and nothing to any. */
  lemma WriteAdds(c: Config, s: State, id: nat, samples: nat, rate: int, k: nat)
    requires IsRecorder(s, id) && k < |s.assets|
    ensures var t := Write(c, s, id, samples, rate);
      && |t.assets| == |s.assets|
      && t.assets[k].accepted
         == s.assets[k].accepted + (if k == id && Accepts(c, s, id, samples, rate) then 2 * samples else 0)
  {
  }

  /** An accepted frame is queued last, with its bytes; a refused one is not queued. */
  lemma WriteQueues(c: Config, s: State, id: nat, samples: nat, rate: int)
    requires IsRecorder(s, id)
    ensures var t := Write(c, s, id, samples, rate);
      Accepts(c, s, id, samples, rate) <==>
      |t.work| > |s.work| && t.work[|t.work| - 1] == FrameOp(id, 2 * samples)
  {
  }

  /** A write to an open recorder fails the recording unless it is accepted and its header fits. */
  lemma WriteFailsIff(c: Config, s: State, id: nat, samples: nat, rate: int, k: nat)
    requires IsRecorder(s, id) && k < |s.assets|
    ensures var t, a := Write(c, s, id, samples, rate), s.assets[id];
      && k < |t.assets|
      && (t.assets[k].failed <==>
            s.assets[k].failed
            || (k == id && !s.closing && !a.finalized && samples > 0
                && (!Accepts(c, s, id, samples, rate) || (!a.initialized && FirstHeader(c, s) == 0))))
  {
  }

  // ----- the bytes of a ready row -----

  /** The asset is the same as far as its bytes go, and its row did not turn ready. */
  predicate Kept(a: Asset, b: Asset) {
    && b.kind == a.kind && b.accepted == a.accepted && (a.released ==> b.released) && (a.failed ==> b.failed)
    && (b.row == Ready ==> a.row == Ready && b.rowBytes == a.rowBytes)
  }

  /** A ready output holds the header and what was accepted, a ready input the `given` bytes. */
  predicate Booked(a: Asset, given: nat) {
    && (a.kind == Output && a.row == Ready ==> a.rowBytes == 44 + a.accepted)
    && (a.kind == Input && a.row == Ready ==> a.rowBytes == given)
    && (a.kind == Input && !a.released ==> a.accepted == given)
  }

  predicate KeptAt(s: State, t: State, k: nat) {
    k < |s.assets| && k < |t.assets| && Kept(s.assets[k], t.assets[k])
  }

  lemma InsertKeeps(assets: seq<Asset>, id: nat, row: Row, k: nat)
    requires id < |assets| && row != Ready && k < |assets|
    ensures Kept(assets[k], Insert(assets, id, row)[k])
  {
  }

  lemma CheckKeepsBytes(c: Config, s: State, id: nat, candidates: seq<Session>, begin: set<Session>, k: nat)
    requires id < |s.assets| && k < |s.assets|
    ensures KeptAt(s, CheckFor(c, s, id, candidates, begin), k)
  {
  }

  lemma StartKeepsLength(c: Config, s: State, candidates: seq<Session>, begin: set<Session>)
    requires s.phase == Idle && s.work != [] && Applies(s.assets, s.work[0])
    ensures |Start(c, s, candidates, begin).assets| == |s.assets|
  {
  }

  lemma ResumeKeepsLength(c: Config, s: State, outcome: Outcome, begin: set<Session>)
    requires s.phase != Idle && s.work != [] && Applies(s.assets, s.work[0])
    requires s.phase.Removing? <==> s.work[0].RemoveOp?
    ensures |Resume(c, s, outcome, begin).assets| == |s.assets|
  {
  }

  lemma StartKeepsBytes(c: Config, s: State, candidates: seq<Session>, begin: set<Session>, k: nat)
    requires s.phase == Idle && s.work != [] && Applies(s.assets, s.work[0]) && k < |s.assets|
    ensures KeptAt(s, Start(c, s, candidates, begin), k)
  {
    match s.work[0]
    case InputOp(id, _, reserved) =>
      var t := s.(assets := Insert(s.assets, id, if reserved then Pending else Missing));
      InsertKeeps(s.assets, id, if reserved then Pending else Missing, k);
      CheckKeepsBytes(c, t, id, candidates, begin, k);
    case InitOp(id, bytes) =>
      var t := s.(assets := Insert(s.assets, id, if s.assets[id].failed then Truncated else Pending));
      InsertKeeps(s.assets, id, if s.assets[id].failed then Truncated else Pending, k);
      CheckKeepsBytes(c, t, id, candidates, begin, k);
    case FrameOp(id, _) => CheckKeepsBytes(c, s, id, candidates, begin, k);
    case _ =>
  }

  lemma RefusedKeepsBytes(s: State, k: nat)
    requires s.work != [] && Applies(s.assets, s.work[0]) && !s.work[0].RemoveOp? && k < |s.assets|
    ensures KeptAt(s, Refused(s), k)
  {
  }

  lemma FailingKeepsBytes(s: State, id: nat, k: nat)
    requires id < |s.assets| && k < |s.assets|
    ensures KeptAt(s, FailedNow(s, id), k) && |FailedNow(s, id).assets| == |s.assets|
  {
  }

  lemma FailedKeepsBytes(s: State, k: nat)
    requires s.work != [] && Applies(s.assets, s.work[0]) && !s.work[0].RemoveOp? && k < |s.assets|
    ensures KeptAt(s, WriteFailed(s), k)
  {
    if !Ends(s.work[0]) { FailingKeepsBytes(s, s.work[0].id, k); }
  }

  /** Only the head's own asset turns ready, from pending, with its own bytes. */
  lemma CommittedBooks(c: Config, bound: nat, s: State, k: nat, given: nat)
    requires Inv(c, bound, s) && s.phase == Writing && s.work != [] && Ends(s.work[0]) && k < |s.assets|
    requires Applies(s.assets, s.work[0]) && Booked(s.assets[k], given)
    ensures var t := Committed(s);
      k < |t.assets| && t.assets[k].accepted == s.assets[k].accepted && t.assets[k].kind == s.assets[k].kind
      && Booked(t.assets[k], given) && t.assets[k].failed == s.assets[k].failed
  {
    hide Inv;
    HeadFits(c, bound, s);
  }

  lemma HeadFits(c: Config, bound: nat, s: State)
    requires Inv(c, bound, s) && s.phase == Writing
    ensures s.work != [] && OpOk(s.assets, s.work[0]) && (s.work[0].InputOp? ==> s.work[0].reserved)
  {
  }

  /** The bytes of asset `k` stay booked from `s` to `t`, and `added` more were accepted. */
  predicate Books(s: State, t: State, k: nat, given: nat, added: nat) {
    && k < |s.assets| && k < |t.assets| && t.assets[k].kind == s.assets[k].kind
    && t.assets[k].accepted == s.assets[k].accepted + added && Booked(t.assets[k], given)
    && (s.assets[k].failed ==> t.assets[k].failed)
  }

  lemma KeptBooks(s: State, t: State, k: nat, given: nat)
    requires KeptAt(s, t, k) && Booked(s.assets[k], given)
    ensures Books(s, t, k, given, 0)
  {
  }

  lemma ResumeBooks(c: Config, bound: nat, s: State, outcome: Outcome, begin: set<Session>, k: nat, given: nat)
    requires Inv(c, bound, s) && s.phase != Idle && s.work != [] && Applies(s.assets, s.work[0])
    requires (s.phase.Removing? <==> s.work[0].RemoveOp?) && k < |s.assets| && Booked(s.assets[k], given)
    ensures Books(s, Resume(c, s, outcome, begin), k, given, 0)
  {
    hide Refused, WriteFailed, Committed, Booked, Inv;
    var t := Resume(c, s, outcome, begin);
    match s.phase
    case Evicting(victim, bytes, rest) =>
      CheckKeepsBytes(c, RowsRemoved(s, victim, bytes), s.work[0].id, rest, begin, k);
      KeptBooks(s, t, k, given);
    case Answered(_) =>
      RefusedKeepsBytes(s, k);
      KeptBooks(s, t, k, given);
    case Writing =>
      if outcome == Done && Ends(s.work[0]) {
        CommittedBooks(c, bound, s, k, given);
      } else {
        FailedKeepsBytes(s, k);
        KeptBooks(s, t, k, given);
      }
    case _ =>
      EndingKeepsBytes(c, s, outcome, begin, k);
      KeptBooks(s, t, k, given);
  }

  lemma EndingKeepsBytes(c: Config, s: State, outcome: Outcome, begin: set<Session>, k: nat)
    requires s.phase == Discarding || s.phase == Unwinding || s.phase.Removing?
    requires s.work != [] && Applies(s.assets, s.work[0])
    requires (s.phase.Removing? <==> s.work[0].RemoveOp?) && k < |s.assets|
    ensures KeptAt(s, Resume(c, s, outcome, begin), k)
  {
  }

  lemma WriteBooks(c: Config, bound: nat, s: State, id: nat, samples: nat, rate: int, k: nat, given: nat)
    requires Inv(c, bound, s) && IsRecorder(s, id) && k < |s.assets| && Booked(s.assets[k], given)
    ensures Books(s, Write(c, s, id, samples, rate), k, given,
                  if k == id && Accepts(c, s, id, samples, rate) then 2 * samples else 0)
  {
    WriteAdds(c, s, id, samples, rate, k);
    assert AssetOk(s.assets[k], k, s.work, s.phase);
    WriteKeepsRows(c, s, id, samples, rate, k);
    WriteFailsIff(c, s, id, samples, rate, k);
  }

  predicate SameRow(s: State, t: State, k: nat) {
    && k < |s.assets| && k < |t.assets|
    && var a, b := s.assets[k], t.assets[k];
       b.row == a.row && b.rowBytes == a.rowBytes && b.kind == a.kind && b.released == a.released
  }

  lemma FailingKeepsRows(s: State, id: nat, k: nat)
    requires id < |s.assets| && k < |s.assets|
    ensures SameRow(s, FailedNow(s, id), k)
  {
  }

  lemma AcceptKeepsRows(c: Config, s: State, id: nat, bytes: nat, k: nat)
    requires id < |s.assets| && k < |s.assets|
    ensures SameRow(s, AcceptFrame(c, s, id, bytes), k)
  {
  }

  lemma WriteKeepsRows(c: Config, s: State, id: nat, samples: nat, rate: int, k: nat)
    requires IsRecorder(s, id) && k < |s.assets|
    ensures SameRow(s, Write(c, s, id, samples, rate), k)
  {
    FailingKeepsRows(s, id, k);
    var t := EnsureRow(c, s, id, rate);
    FailingKeepsRows(t, id, k);
    AcceptKeepsRows(c, t, id, 2 * samples, k);
  }

  /** The samples a callback adds to recording `k`. */
  function Added(c: Config, s: State, e: Event, k: nat): nat {
    if e.ToWrite? && e.id == k && Accepts(c, s, k, e.samples, e.rate) then e.samples else 0
  }

  lemma StepBooks(c: Config, bound: nat, s: State, e: Event, k: nat, given: nat)
    requires Inv(c, bound, s) && k < |s.assets| && Booked(s.assets[k], given)
    ensures Books(s, Step(c, s, e), k, given, 2 * Added(c, s, e, k))
  {
    match e
    case ToWrite(id, samples, rate) =>
      if IsRecorder(s, id) { WriteBooks(c, bound, s, id, samples, rate, k, given); }
    case ToStart(candidates, begin) =>
      if s.phase == Idle && s.work != [] && Applies(s.assets, s.work[0]) {
        StartKeepsBytes(c, s, candidates, begin, k);
        KeptBooks(s, Step(c, s, e), k, given);
      }
    case ToResume(outcome, begin) =>
      if s.phase != Idle && s.work != [] && Applies(s.assets, s.work[0])
        && (s.phase.Removing? <==> s.work[0].RemoveOp?) {
        ResumeBooks(c, bound, s, outcome, begin, k, given);
      }
    case _ =>
      CallbackKeepsBytes(c, s, e, k);
      KeptBooks(s, Step(c, s, e), k, given);
  }

  lemma CallbackKeepsBytes(c: Config, s: State, e: Event, k: nat)
    requires !e.ToWrite? && !e.ToStart? && !e.ToResume? && k < |s.assets|
    ensures KeptAt(s, Step(c, s, e), k)
  {
  }

  // ----- over whole runs -----

  /** The samples recording `k` was given and accepted. */
  function Taken(c: Config, initial: State, events: seq<Event>, k: nat): nat {
    if events == [] then 0
    else
      var before := events[..|events| - 1];
      Taken(c, initial, before, k) + Added(c, Run(c, initial, before), events[|events| - 1], k)
  }

  /** The bytes input `k` was created with. */
  function Given(c: Config, initial: State, events: seq<Event>, k: nat): nat {
    if events == [] then 0
    else
      var before, e := events[..|events| - 1], events[|events| - 1];
      if e.ToRetainInput? && |Run(c, initial, before).assets| == k then e.bytes else Given(c, initial, before, k)
  }

  /** The bytes a callback brings a new asset. */
  function Brings(e: Event): nat {
    if e.ToRetainInput? then e.bytes else 0
  }

  /** The account of asset `k`, if it is there and was not on disk at open. */
  predicate Account(assets: seq<Asset>, k: nat, given: nat, taken: nat) {
    k < |assets| && assets[k].kind != AtRest ==>
      Booked(assets[k], given) && (assets[k].kind == Output ==> assets[k].accepted == 2 * taken)
  }

  /** No step loses an asset; a new one is empty or holds the bytes of its input. */
  lemma NewAssets(c: Config, s: State, e: Event)
    ensures var t := Step(c, s, e);
      |s.assets| <= |t.assets| <= |s.assets| + 1
      && (|t.assets| > |s.assets| ==>
            Account(t.assets, |s.assets|, Brings(e), 0)
            && (e.ToRetainInput? || t.assets[|s.assets|].kind == Output))
  {
    match e
    case ToWrite(id, samples, rate) => if IsRecorder(s, id) { WriteAdds(c, s, id, samples, rate, id); }
    case ToStart(candidates, begin) =>
      if s.phase == Idle && s.work != [] && Applies(s.assets, s.work[0]) { StartKeepsLength(c, s, candidates, begin); }
    case ToResume(outcome, begin) =>
      if s.phase != Idle && s.work != [] && Applies(s.assets, s.work[0])
        && (s.phase.Removing? <==> s.work[0].RemoveOp?) {
        ResumeKeepsLength(c, s, outcome, begin);
      }
    case _ =>
  }

  lemma OldAccountStep(c: Config, bound: nat, s: State, e: Event, k: nat, given: nat, taken: nat)
    requires Inv(c, bound, s) && Account(s.assets, k, given, taken) && k < |s.assets|
    ensures Account(Step(c, s, e).assets, k, given, taken + Added(c, s, e, k))
  {
    StepBooks(c, bound, s, e, k, given);
    BooksAccount(s, Step(c, s, e), k, given, taken, Added(c, s, e, k));
  }

  lemma NewAccountStep(c: Config, s: State, e: Event, k: nat, given: nat)
    requires k >= |s.assets| && (e.ToRetainInput? && k == |s.assets| ==> given == e.bytes)
    ensures Added(c, s, e, k) == 0 && Account(Step(c, s, e).assets, k, given, 0)
  {
    NewAssets(c, s, e);
    NewAccount(Step(c, s, e).assets, |s.assets|, k, given, e);
  }

  lemma NewAccount(assets: seq<Asset>, n: nat, k: nat, given: nat, e: Event)
    requires |assets| <= n + 1 && k >= n && (|assets| > n ==> Account(assets, n, Brings(e), 0))
    requires e.ToRetainInput? && k == n ==> given == e.bytes
    requires !e.ToRetainInput? && n < |assets| ==> assets[n].kind == Output
    ensures Account(assets, k, given, 0)
  {
  }

  lemma BooksAccount(s: State, t: State, k: nat, given: nat, taken: nat, added: nat)
    requires Books(s, t, k, given, 2 * added) && Account(s.assets, k, given, taken)
    ensures Account(t.assets, k, given, taken + added)
  {
  }

  lemma {:induction false} RunBooks(c: Config, initial: State, events: seq<Event>, k: nat)
    requires Opened(initial)
    ensures Account(Run(c, initial, events).assets, k, Given(c, initial, events, k), Taken(c, initial, events, k))
    decreases |events|
  {
    if events == [] {
      assert k < |initial.assets| ==> initial.assets[k].kind == AtRest;
    } else {
      var before, e := events[..|events| - 1], events[|events| - 1];
      var s, given, taken := Run(c, initial, before), Given(c, initial, events, k), Taken(c, initial, before, k);
      RunKeeps(c, initial, before);
      RunBooks(c, initial, before, k);
      if k < |s.assets| {
        OldAccountStep(c, Ceiling(c, initial), s, e, k, given, taken);
      } else {
        NothingTaken(c, initial, before, k);
        NewAccountStep(c, s, e, k, given);
      }
    }
  }

  lemma {:induction false} NothingTaken(c: Config, initial: State, events: seq<Event>, k: nat)
    requires k >= |Run(c, initial, events).assets|
    ensures Taken(c, initial, events, k) == 0
    decreases |events|
  {
    if events != [] {
      var before := events[..|events| - 1];
      NewAssets(c, Run(c, initial, before), events[|events| - 1]);
      NothingTaken(c, initial, before, k);
    }
  }

  /** In every run a ready recording holds the header and two bytes for each sample its writes were
      accepted with; a ready utterance holds the bytes it was given. */
  lemma ReadyBytesAre(c: Config, initial: State, events: seq<Event>, k: nat)
    requires Opened(initial)
    requires k < |Run(c, initial, events).assets| && Run(c, initial, events).assets[k].row == Ready
    ensures var a := Run(c, initial, events).assets[k];
      && (a.kind == Output ==> a.rowBytes == 44 + 2 * Taken(c, initial, events, k))
      && (a.kind == Input ==> a.rowBytes == Given(c, initial, events, k))
  {
    RunBooks(c, initial, events, k);
  }

  // ----- all or nothing -----

  /** A recording that has failed. */
  predicate IsFailed(s: State, k: nat) {
    IsRecorder(s, k) && s.assets[k].failed
  }

  lemma StepKeepsFailed(c: Config, bound: nat, s: State, e: Event, k: nat)
    requires Inv(c, bound, s) && IsFailed(s, k)
    ensures IsFailed(Step(c, s, e), k)
  {
    assert AssetOk(s.assets[k], k, s.work, s.phase);
    StepBooks(c, bound, s, e, k, 0);
  }

  lemma {:induction false} FailedStays(c: Config, initial: State, events: seq<Event>, n: nat, k: nat)
    requires Opened(initial) && n <= |events| && IsFailed(At(c, initial, events, n), k)
    ensures IsFailed(Run(c, initial, events), k)
    decreases |events| - n
  {
    hide Step, Inv;
    if n == |events| {
      assert events[..n] == events;
    } else {
      RunKeeps(c, initial, events[..n]);
      StepKeepsFailed(c, Ceiling(c, initial), At(c, initial, events, n), events[n], k);
      NextAt(c, initial, events, n);
      FailedStays(c, initial, events, n + 1, k);
    }
  }

  /** A ready recording is complete: every write made while the store and the recorder were open was
      accepted, header and all. One refusal and the recording never becomes ready. */
  lemma ReadyTookEverything(c: Config, initial: State, events: seq<Event>, n: nat, k: nat, samples: nat, rate: int)
    requires Opened(initial) && n < |events| && events[n] == ToWrite(k, samples, rate) && samples > 0
    requires var s := At(c, initial, events, n); IsRecorder(s, k) && !s.closing && !s.assets[k].finalized
    requires k < |Run(c, initial, events).assets| && Run(c, initial, events).assets[k].row == Ready
    ensures var s := At(c, initial, events, n);
      Accepts(c, s, k, samples, rate) && (s.assets[k].initialized || FirstHeader(c, s) == 44)
  {
    hide Inv, Accepts, Write;
    var s := At(c, initial, events, n);
    NextAt(c, initial, events, n);
    WriteFailsIff(c, s, k, samples, rate, k);
    RunKeeps(c, initial, events);
    var t := At(c, initial, events, n + 1);
    if t.assets[k].failed {
      WriteKeepsRows(c, s, k, samples, rate, k);
      FailedStays(c, initial, events, n + 1, k);
      FailedIsNotReady(c, Ceiling(c, initial), Run(c, initial, events), k);
    }
  }

  lemma FailedIsNotReady(c: Config, bound: nat, s: State, k: nat)
    requires Inv(c, bound, s) && IsFailed(s, k)
    ensures s.assets[k].row != Ready
  {
    assert AssetOk(s.assets[k], k, s.work, s.phase);
  }

  // ----- closing -----

  lemma WriteKeepsClosing(c: Config, s: State, id: nat, samples: nat, rate: int)
    requires IsRecorder(s, id)
    ensures Write(c, s, id, samples, rate).closing == s.closing
  {
  }

  lemma QueueKeepsClosing(c: Config, s: State, e: Event)
    requires e.ToStart? || e.ToResume?
    ensures Step(c, s, e).closing == s.closing
  {
  }

  /** Closing is for good; nothing but `ToClose` begins it. */
  lemma ClosesIff(c: Config, s: State, e: Event)
    ensures Step(c, s, e).closing <==> s.closing || e == ToClose
  {
    match e
    case ToWrite(id, samples, rate) => if IsRecorder(s, id) { WriteKeepsClosing(c, s, id, samples, rate); }
    case ToStart(_, _) => QueueKeepsClosing(c, s, e);
    case ToResume(_, _) => QueueKeepsClosing(c, s, e);
    case _ =>
  }

  lemma {:induction false} ClosedStays(c: Config, initial: State, events: seq<Event>, n: nat)
    requires n < |events| && events[n] == ToClose
    ensures Run(c, initial, events).closing
    decreases |events|
  {
    hide Step;
    var before, e := events[..|events| - 1], events[|events| - 1];
    ClosesIff(c, Run(c, initial, before), e);
    if n < |before| { ClosedStays(c, initial, before, n); }
  }

  /** Once the store is closing no callback brings it another byte. */
  lemma ClosingTakesNothing(c: Config, initial: State, events: seq<Event>, n: nat, e: Event, k: nat)
    requires n < |events| && events[n] == ToClose
    ensures Added(c, Run(c, initial, events), e, k) == 0
    ensures e.ToRetainInput? ==> Step(c, Run(c, initial, events), e) == Run(c, initial, events)
  {
    ClosedStays(c, initial, events, n);
  }
}
