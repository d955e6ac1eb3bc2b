/** What becomes of a recording's row (apps/realtime-gateway/src/media-store.ts:303-471): once the queue
    is empty, only a recording still being made is pending. */
module MediaRows {
  import opened Prelude
  import opened MediaStore
  import opened MediaEviction
  import opened MediaContents

  /** A row is pending only while its asset holds its reservation; a failed recording's pending row has
      its update queued; a recorder that was not written to has no row. */
  predicate RowOk(s: State, k: nat)
    requires k < |s.assets|
  {
    var a := s.assets[k];
    && (a.kind != AtRest && a.released ==> a.row != Pending)
    && (a.kind == Output && a.failed && a.row == Pending ==> FailOp(k) in s.work)
    && (a.kind == Output && !a.initialized ==> a.row == Absent)
    && (a.kind != AtRest && s.phase == Discarding && s.work != [] && Ends(s.work[0]) && s.work[0].id == k ==>
          a.row != Pending)
  }

  predicate RowStaysOk(s: State, t: State, k: nat) {
    k < |s.assets| && RowOk(s, k) ==> k < |t.assets| && RowOk(t, k)
  }

  // ----- callbacks -----

  /** A recording with a row that fails has its row's update queued. */
  lemma FailureIsQueued(c: Config, s: State, id: nat, samples: nat, rate: int, k: nat)
    requires IsRecorder(s, id) && k < |s.assets|
    ensures var t := Write(c, s, id, samples, rate);
      && k < |t.assets| && s.work <= t.work && t.phase == s.phase
      && (t.assets[k].failed && !s.assets[k].failed && s.assets[k].initialized ==> FailOp(k) in t.work)
      && (s.assets[k].initialized ==> t.assets[k].initialized)
      && (t.assets[k].initialized == s.assets[k].initialized || t.assets[k].row == s.assets[k].row)
  {
  }

  lemma WriteKeepsRowOk(c: Config, bound: nat, s: State, id: nat, samples: nat, rate: int, k: nat)
    requires Inv(c, bound, s) && IsRecorder(s, id) && k < |s.assets| && RowOk(s, k)
    ensures RowStaysOk(s, Write(c, s, id, samples, rate), k)
  {
    hide Write;
    FailureIsQueued(c, s, id, samples, rate, k);
    WriteKeepsRows(c, s, id, samples, rate, k);
    var t := Write(c, s, id, samples, rate);
    if s.work != [] { assert t.work[0] == s.work[0]; }
  }

  lemma CallbackLeavesHead(c: Config, s: State, e: Event)
    requires !e.ToWrite? && !e.ToStart? && !e.ToResume?
    ensures var t := Step(c, s, e); s.work <= t.work && t.phase == s.phase
  {
  }

  lemma CallbackLeavesRow(c: Config, s: State, e: Event, k: nat)
    requires !e.ToWrite? && !e.ToStart? && !e.ToResume? && k < |s.assets|
    ensures var t := Step(c, s, e);
      && k < |t.assets|
      && var a, b := s.assets[k], t.assets[k];
         b.kind == a.kind && b.released == a.released && b.failed == a.failed && b.initialized == a.initialized
         && (b.row == a.row || (a.row == Ready && b.row == Missing))
  {
  }

  lemma CallbackKeepsRowOk(c: Config, bound: nat, s: State, e: Event, k: nat)
    requires Inv(c, bound, s) && !e.ToWrite? && !e.ToStart? && !e.ToResume? && k < |s.assets| && RowOk(s, k)
    ensures RowStaysOk(s, Step(c, s, e), k)
  {
    hide Step;
    CallbackLeavesHead(c, s, e);
    CallbackLeavesRow(c, s, e, k);
    var t := Step(c, s, e);
    if s.work != [] { assert t.work[0] == s.work[0]; }
  }

  // ----- the queue -----

  lemma PopKeepsRowOk(s: State, t: State, k: nat)
    requires k < |s.assets| && RowOk(s, k) && s.work != [] && t == Finished(s)
    requires s.work[0] == FailOp(k) ==> s.assets[k].row != Pending
    ensures RowStaysOk(s, t, k)
  {
    assert s.work == [s.work[0]] + s.work[1..];
  }

  lemma CheckKeepsRowOk(c: Config, s: State, id: nat, candidates: seq<Session>, begin: set<Session>, k: nat)
    requires id < |s.assets| && k < |s.assets| && RowOk(s, k)
    ensures RowStaysOk(s, CheckFor(c, s, id, candidates, begin), k)
  {
    hide Scan;
    ScanStops(c, s, candidates, begin);
  }

  lemma InsertKeepsRowOk(s: State, t: State, id: nat, row: Row, k: nat)
    requires id < |s.assets| && k < |s.assets| && RowOk(s, k) && t == s.(assets := Insert(s.assets, id, row))
    requires !s.assets[id].released && s.assets[id].kind != AtRest && s.phase == Idle
    requires s.assets[id].kind == Output ==> s.assets[id].initialized
    requires row == Pending && s.assets[id].kind == Output ==> !s.assets[id].failed
    ensures RowStaysOk(s, t, k)
  {
  }

  lemma StartKeepsRowOk(c: Config, bound: nat, s: State, candidates: seq<Session>, begin: set<Session>, k: nat)
    requires Inv(c, bound, s) && s.phase == Idle && s.work != [] && Applies(s.assets, s.work[0])
    requires k < |s.assets| && RowOk(s, k)
    ensures RowStaysOk(s, Start(c, s, candidates, begin), k)
  {
    hide CheckFor, Insert, RowOk, Inv, Finished;
    assert OpOk(s.assets, s.work[0]) by { HeadIsOk(c, bound, s); }
    match s.work[0]
    case InputOp(id, _, reserved) =>
      InputStartKeepsRowOk(c, s, candidates, begin, k);
    case InitOp(id, bytes) =>
      var t := s.(assets := Insert(s.assets, id, if s.assets[id].failed then Truncated else Pending));
      InsertKeepsRowOk(s, t, id, if s.assets[id].failed then Truncated else Pending, k);
      CheckKeepsRowOk(c, t, id, candidates, begin, k);
      PopKeepsRowOk(t, Finished(t), k);
    case FrameOp(id, _) =>
      CheckKeepsRowOk(c, s, id, candidates, begin, k);
      PopKeepsRowOk(s, Finished(s), k);
    case _ => EndStartKeepsRowOk(c, s, candidates, begin, k);
  }

  lemma HeadIsOk(c: Config, bound: nat, s: State)
    requires Inv(c, bound, s) && (s.work != [] || s.phase != Idle)
    ensures s.work != [] && OpOk(s.assets, s.work[0]) && (s.phase == Discarding ==> Ends(s.work[0]))
  {
  }

  lemma InputStartKeepsRowOk(c: Config, s: State, candidates: seq<Session>, begin: set<Session>, k: nat)
    requires s.phase == Idle && s.work != [] && s.work[0].InputOp? && OpOk(s.assets, s.work[0])
    requires k < |s.assets| && RowOk(s, k)
    ensures RowStaysOk(s, Start(c, s, candidates, begin), k)
  {
    hide CheckFor;
    var id, reserved := s.work[0].id, s.work[0].reserved;
    var t := s.(assets := Insert(s.assets, id, if reserved then Pending else Missing));
    assert RowOk(t, k);
    CheckKeepsRowOk(c, t, id, candidates, begin, k);
    PopKeepsRowOk(t, Finished(t), k);
  }

  lemma EndStartKeepsRowOk(c: Config, s: State, candidates: seq<Session>, begin: set<Session>, k: nat)
    requires s.phase == Idle && s.work != [] && Applies(s.assets, s.work[0])
    requires s.work[0].FailOp? || s.work[0].FinalizeOp? || s.work[0].RemoveOp?
    requires k < |s.assets| && RowOk(s, k)
    ensures RowStaysOk(s, Start(c, s, candidates, begin), k)
  {
    if s.work[0].FailOp? {
      var t := WithAsset(s, s.work[0].id, SetRow(s.assets[s.work[0].id], Truncated));
      assert RowOk(t, k);
      PopKeepsRowOk(t, Finished(t), k);
    }
  }

  lemma EndsKeepRowOk(s: State, t: State, id: nat, row: Row, k: nat)
    requires s.work != [] && id < |s.assets| && k < |s.assets| && RowOk(s, k) && !s.work[0].FailOp?
    requires row != Pending && (s.assets[id].kind == Output ==> s.assets[id].initialized)
    requires t == Finished(Released(WithAsset(s, id, SetRow(s.assets[id], row)), id))
    ensures RowStaysOk(s, t, k)
  {
    assert s.work == [s.work[0]] + s.work[1..];
  }

  lemma RefusedKeepsRowOk(c: Config, bound: nat, s: State, k: nat)
    requires Inv(c, bound, s) && s.phase == Answered(false) && Applies(s.assets, s.work[0]) && !s.work[0].RemoveOp?
    requires k < |s.assets| && RowOk(s, k)
    ensures RowStaysOk(s, Refused(s), k)
  {
    var id := s.work[0].id;
    if s.work[0].InputOp? {
      HeadIsOk(c, bound, s);
      EndsKeepRowOk(s, Refused(s), id, Missing, k);
    } else {
      FailedHeadKeepsRowOk(s, FailedNow(s, id), id, k);
    }
  }

  /** The head's recording fails, and the head is done. */
  lemma FailedHeadKeepsRowOk(s: State, t: State, id: nat, k: nat)
    requires id < |s.assets| && k < |s.assets| && RowOk(s, k) && s.work != [] && t == FailedNow(s, id)
    requires !s.work[0].FailOp? && s.phase != Discarding
    ensures k < |t.assets| && RowOk(t, k) && t.work != [] && t.work[0] == s.work[0] && RowStaysOk(s, Finished(t), k)
  {
    if t != s { assert t.work[|s.work|] == FailOp(id); }
    assert t.work[0] == s.work[0];
    PopKeepsRowOk(t, Finished(t), k);
  }

  lemma WriteFailedKeepsRowOk(c: Config, bound: nat, s: State, k: nat)
    requires Inv(c, bound, s) && s.phase == Writing && Applies(s.assets, s.work[0]) && !s.work[0].RemoveOp?
    requires k < |s.assets| && RowOk(s, k)
    ensures RowStaysOk(s, WriteFailed(s), k)
  {
    hide FailedNow, Finished, RowOk, Inv;
    NotAFailOp(c, bound, s);
    var op := s.work[0];
    if Ends(op) {
      PhaseKeepsRowOk(s, Unwinding, k);
    } else {
      var t := FailedNow(s, op.id);
      FailedHeadKeepsRowOk(s, t, op.id, k);
      FailingKeepsBytes(s, op.id, k);
      if op.InitOp? { TruncatedKeepsRowOk(t, op.id, k); }
    }
  }

  lemma NotAFailOp(c: Config, bound: nat, s: State)
    requires Inv(c, bound, s) && s.phase == Writing
    ensures s.work != [] && !s.work[0].FailOp?
  {
  }

  lemma TruncatedKeepsRowOk(s: State, id: nat, k: nat)
    requires id < |s.assets| && k < |s.assets| && RowOk(s, k) && s.work != [] && s.work[0].InitOp?
    ensures RowStaysOk(s, Finished(WithAsset(s, id, SetRow(s.assets[id], Truncated))), k)
  {
    assert s.work == [s.work[0]] + s.work[1..];
  }

  lemma PhaseKeepsRowOk(s: State, phase: Phase, k: nat)
    requires k < |s.assets| && RowOk(s, k) && phase != Discarding
    ensures RowStaysOk(s, s.(phase := phase), k)
  {
  }

  lemma CommittedKeepsRowOk(c: Config, bound: nat, s: State, k: nat)
    requires Inv(c, bound, s) && s.phase == Writing && Applies(s.assets, s.work[0]) && Ends(s.work[0])
    requires k < |s.assets| && RowOk(s, k)
    ensures RowStaysOk(s, Committed(s), k)
  {
    hide Inv;
    HeadIsOk(c, bound, s);
    assert s.work == [s.work[0]] + s.work[1..];
  }

  lemma DiscardingKeepsRowOk(c: Config, bound: nat, s: State, outcome: Outcome, k: nat)
    requires Inv(c, bound, s) && s.phase == Discarding && Applies(s.assets, s.work[0])
    requires k < |s.assets| && RowOk(s, k)
    ensures RowStaysOk(s, Finished(Released(s, s.work[0].id)), k) && RowStaysOk(s, s.(phase := Unwinding), k)
  {
    hide Inv;
    HeadIsOk(c, bound, s);
    assert s.work == [s.work[0]] + s.work[1..];
  }

  lemma UnwindingKeepsRowOk(c: Config, bound: nat, s: State, k: nat)
    requires Inv(c, bound, s) && s.phase == Unwinding && Applies(s.assets, s.work[0])
    requires k < |s.assets| && RowOk(s, k)
    ensures var id := s.work[0].id;
      RowStaysOk(s, Finished(Released(WithAsset(s, id, SetRow(s.assets[id], Missing)), id)), k)
  {
    var id := s.work[0].id;
    HeadIsOk(c, bound, s);
    EndsKeepRowOk(s, Finished(Released(WithAsset(s, id, SetRow(s.assets[id], Missing)), id)), id, Missing, k);
  }

  lemma RemovedKeepsRowOk(s: State, session: Session, bytes: nat, k: nat)
    requires k < |s.assets| && RowOk(s, k)
    ensures RowStaysOk(s, RowsRemoved(s, session, bytes), k)
  {
  }

  lemma ResumeKeepsRowOk(c: Config, bound: nat, s: State, outcome: Outcome, begin: set<Session>, k: nat)
    requires Inv(c, bound, s) && s.phase != Idle && s.work != [] && Applies(s.assets, s.work[0])
    requires (s.phase.Removing? <==> s.work[0].RemoveOp?) && k < |s.assets| && RowOk(s, k)
    ensures RowStaysOk(s, Resume(c, s, outcome, begin), k)
  {
    hide RowOk, Inv, Refused, WriteFailed, Committed, Finished, CheckFor, RowsRemoved;
    match s.phase
    case Evicting(victim, bytes, rest) =>
      var t := RowsRemoved(s, victim, bytes);
      RemovedKeepsRowOk(s, victim, bytes, k);
      RemovedKeepsLength(s, victim, bytes);
      CheckKeepsRowOk(c, t, s.work[0].id, rest, begin, k);
      PhaseKeepsRowOk(s, Answered(false), k);
      PhaseKeepsRowOk(t, Answered(false), k);
    case Answered(ok) =>
      PhaseKeepsRowOk(s, Writing, k);
      if !ok { RefusedKeepsRowOk(c, bound, s, k); }
    case Writing =>
      NotAFailOp(c, bound, s);
      if outcome != Done {
        WriteFailedKeepsRowOk(c, bound, s, k);
      } else if Ends(s.work[0]) {
        CommittedKeepsRowOk(c, bound, s, k);
      } else {
        PopKeepsRowOk(s, Finished(s), k);
      }
    case Discarding => DiscardingKeepsRowOk(c, bound, s, outcome, k);
    case Unwinding => UnwindingKeepsRowOk(c, bound, s, k);
    case Removing(bytes) =>
      var t := RowsRemoved(s, s.work[0].session, bytes);
      RemovedKeepsRowOk(s, s.work[0].session, bytes, k);
      RemovedKeepsLength(s, s.work[0].session, bytes);
      PopKeepsRowOk(t, Finished(t), k);
      PopKeepsRowOk(s, Finished(s), k);
  }

  lemma RemovedKeepsLength(s: State, session: Session, bytes: nat)
    ensures var t := RowsRemoved(s, session, bytes); |t.assets| == |s.assets| && t.work == s.work
  {
  }

  lemma StepKeepsRowOk(c: Config, bound: nat, s: State, e: Event, k: nat)
    requires Inv(c, bound, s) && k < |s.assets| && RowOk(s, k)
    ensures k < |Step(c, s, e).assets| && RowOk(Step(c, s, e), k)
  {
    hide RowOk, Inv, Start, Resume, Write;
    match e
    case ToWrite(id, samples, rate) => if IsRecorder(s, id) { WriteKeepsRowOk(c, bound, s, id, samples, rate, k); }
    case ToStart(candidates, begin) =>
      if s.phase == Idle && s.work != [] && Applies(s.assets, s.work[0]) {
        StartKeepsRowOk(c, bound, s, candidates, begin, k);
      }
    case ToResume(outcome, begin) =>
      if s.phase != Idle && s.work != [] && Applies(s.assets, s.work[0])
        && (s.phase.Removing? <==> s.work[0].RemoveOp?) {
        ResumeKeepsRowOk(c, bound, s, outcome, begin, k);
      }
    case _ => CallbackKeepsRowOk(c, bound, s, e, k);
  }

  lemma NewAssetsAreNamed(c: Config, s: State, e: Event)
    requires !e.ToRetainInput? && !e.ToNewRecorder?
    ensures |Step(c, s, e).assets| == |s.assets|
  {
    hide Start, Resume, Write;
    match e
    case ToWrite(id, samples, rate) => if IsRecorder(s, id) { WriteAdds(c, s, id, samples, rate, id); }
    case ToStart(candidates, begin) =>
      if s.phase == Idle && s.work != [] && Applies(s.assets, s.work[0]) { StartKeepsLength(c, s, candidates, begin); }
    case ToResume(outcome, begin) =>
      if s.phase != Idle && s.work != [] && Applies(s.assets, s.work[0])
        && (s.phase.Removing? <==> s.work[0].RemoveOp?) {
        ResumeKeepsLength(c, s, outcome, begin);
      }
    case _ =>
  }

  lemma NewRowIsOk(c: Config, s: State, e: Event, k: nat)
    requires e.ToRetainInput? || e.ToNewRecorder?
    requires k >= |s.assets|
    ensures k < |Step(c, s, e).assets| ==> RowOk(Step(c, s, e), k)
  {
  }

  lemma {:induction false} RunKeepsRowOk(c: Config, initial: State, events: seq<Event>, k: nat)
    requires Opened(initial) && k < |Run(c, initial, events).assets|
    ensures RowOk(Run(c, initial, events), k)
    decreases |events|
  {
    hide Step, Inv, RowOk;
    if events == [] {
      AtRestIsOk(initial, k);
    } else {
      var before, e := events[..|events| - 1], events[|events| - 1];
      var s := Run(c, initial, before);
      RunKeeps(c, initial, before);
      if k < |s.assets| {
        RunKeepsRowOk(c, initial, before, k);
        StepKeepsRowOk(c, Ceiling(c, initial), s, e, k);
      } else if e.ToRetainInput? || e.ToNewRecorder? {
        NewRowIsOk(c, s, e, k);
      } else {
        NewAssetsAreNamed(c, s, e);
      }
    }
  }

  lemma AtRestIsOk(s: State, k: nat)
    requires Opened(s) && k < |s.assets|
    ensures RowOk(s, k)
  {
    assert s.assets[k].kind == AtRest;
  }

  /** In a store whose queue is empty every row says what became of its recording: the only pending ones
      belong to recordings that were written to, have not failed and are not finalized yet. */
  lemma DrainedRowsAreSettled(c: Config, initial: State, events: seq<Event>, k: nat)
    requires Opened(initial) && Run(c, initial, events).work == [] && k < |Run(c, initial, events).assets|
    requires var a := Run(c, initial, events).assets[k]; a.kind != AtRest && a.row == Pending
    ensures var a := Run(c, initial, events).assets[k];
      a.kind == Output && a.initialized && !a.failed && !a.finalized && !a.released
  {
    var s := Run(c, initial, events);
    RunKeepsRowOk(c, initial, events, k);
    RunKeeps(c, initial, events);
    assert AssetOk(s.assets[k], k, s.work, s.phase);
  }

  /** Audio that was written but cannot be kept is deleted, and when that fails too its row says it is
      missing; either way its reservation is given back and the queue goes on. */
  lemma DiscardedIsReleased(c: Config, initial: State, events: seq<Event>, outcome: Outcome, begin: set<Session>)
    requires Opened(initial) && Run(c, initial, events).phase == Discarding
    ensures var s := Run(c, initial, events);
      && s.work != [] && Ends(s.work[0]) && s.work[0].id < |s.assets|
      && var t, id := Step(c, s, ToResume(outcome, begin)), s.work[0].id;
         if outcome == Done then
           t.work == s.work[1..] && t.phase == Idle && t.assets == s.assets[id := s.assets[id].(released := true)]
         else
           var u := Step(c, t, ToResume(Done, begin));
           && t.phase == Unwinding && t.assets == s.assets
           && u.work == s.work[1..] && u.phase == Idle && |u.assets| == |s.assets| && u.assets[id].released
           && (s.assets[id].row != Absent ==> u.assets[id].row == Missing)
  {
    hide Step, Run, Inv;
    RunKeeps(c, initial, events);
    HeadIsOk(c, Ceiling(c, initial), Run(c, initial, events));
    DiscardingEnds(c, Run(c, initial, events), outcome, begin);
    UnwindingEnds(c, Step(c, Run(c, initial, events), ToResume(outcome, begin)), begin);
  }

  lemma DiscardingEnds(c: Config, s: State, outcome: Outcome, begin: set<Session>)
    requires s.phase == Discarding && s.work != [] && Ends(s.work[0]) && s.work[0].id < |s.assets|
    ensures var t, id := Step(c, s, ToResume(outcome, begin)), s.work[0].id;
      if outcome == Done then
        t.work == s.work[1..] && t.phase == Idle && t.assets == s.assets[id := s.assets[id].(released := true)]
      else t == s.(phase := Unwinding)
  {
  }

  lemma UnwindingEnds(c: Config, s: State, begin: set<Session>)
    ensures s.phase == Unwinding && s.work != [] && Ends(s.work[0]) && s.work[0].id < |s.assets| ==>
      var t, id := Step(c, s, ToResume(Done, begin)), s.work[0].id;
      && t.work == s.work[1..] && t.phase == Idle && |t.assets| == |s.assets| && t.assets[id].released
      && (s.assets[id].row != Absent ==> t.assets[id].row == Missing)
  {
  }
}
