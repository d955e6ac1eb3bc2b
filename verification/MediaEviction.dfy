/** When the media store deletes recordings by itself, and that it keeps what it is given
    (apps/realtime-gateway/src/media-store.ts:247-471). */
module MediaEviction {
  import opened Prelude
  import opened MediaStore

  // ----- nothing goes without need -----

  /** Ready and promised bytes exceed the ceiling. */
  predicate OverCeiling(c: Config, s: State) {
    c.maxBytes.Some? && s.readyBytes + s.reservedBytes > c.maxBytes.value
  }

  /** A scan that evicts found the store over its ceiling. */
  lemma CheckBeginsOver(c: Config, s: State, t: State, id: nat, candidates: seq<Session>, begin: set<Session>)
    requires id < |s.assets| && t == CheckFor(c, s, id, candidates, begin) && t.phase.Evicting?
    ensures OverCeiling(c, t) && t.readyBytes == s.readyBytes && t.reservedBytes == s.reservedBytes
    ensures exists k: nat :: IsFirst(s, candidates, begin, k) && t.phase.victim == candidates[k]
  {
    ScanAnswers(c, s, candidates, begin);
  }

  /** An eviction begins only in a store over its ceiling. */
  lemma EvictionBeginsOver(c: Config, s: State, e: Event)
    requires Step(c, s, e).phase.Evicting? && Step(c, s, e).phase != s.phase
    ensures OverCeiling(c, Step(c, s, e))
  {
    match e
    case ToStart(candidates, begin) => StartBeginsOver(c, s, candidates, begin);
    case ToResume(outcome, begin) => ResumeBeginsOver(c, s, outcome, begin);
    case ToWrite(id, samples, rate) => if IsRecorder(s, id) { WriteKeepsPhase(c, s, id, samples, rate); }
    case _ =>
  }

  lemma WriteKeepsPhase(c: Config, s: State, id: nat, samples: nat, rate: int)
    requires IsRecorder(s, id)
    ensures Write(c, s, id, samples, rate).phase == s.phase
  {
  }

  lemma StartBeginsOver(c: Config, s: State, candidates: seq<Session>, begin: set<Session>)
    requires s.phase == Idle && s.work != [] && Applies(s.assets, s.work[0])
    ensures var t := Start(c, s, candidates, begin); t.phase.Evicting? ==> OverCeiling(c, t)
  {
    var t := Start(c, s, candidates, begin);
    if t.phase.Evicting? {
      match s.work[0]
      case InputOp(id, _, reserved) =>
        var u := s.(assets := Insert(s.assets, id, if reserved then Pending else Missing));
        CheckBeginsOver(c, u, t, id, candidates, begin);
      case InitOp(id, bytes) =>
        var u := s.(assets := Insert(s.assets, id, if s.assets[id].failed then Truncated else Pending));
        CheckBeginsOver(c, u, t, id, candidates, begin);
      case FrameOp(id, _) => CheckBeginsOver(c, s, t, id, candidates, begin);
    }
  }

  lemma ResumeBeginsOver(c: Config, s: State, outcome: Outcome, begin: set<Session>)
    requires s.phase != Idle && s.work != [] && Applies(s.assets, s.work[0])
    requires s.phase.Removing? <==> s.work[0].RemoveOp?
    ensures var t := Resume(c, s, outcome, begin); t.phase.Evicting? ==> OverCeiling(c, t)
  {
    var t := Resume(c, s, outcome, begin);
    if t.phase.Evicting? {
      var u := RowsRemoved(s, s.phase.victim, s.phase.bytes);
      CheckBeginsOver(c, u, t, s.work[0].id, s.phase.rest, begin);
    }
  }

  predicate HasRow(s: State, k: nat) {
    k < |s.assets| && s.assets[k].row != Absent
  }

  /** The segment that deletes the rows of `session`: the end of its eviction or of its removal. */
  predicate Deletes(s: State, e: Event, session: Session) {
    && e.ToResume? && s.work != [] && Applies(s.assets, s.work[0]) && (s.phase.Removing? <==> s.work[0].RemoveOp?)
    && if s.phase.Removing? then e.outcome == Done && s.work[0].session == session
       else s.phase.Evicting? && e.outcome != Failed && s.phase.victim == session
  }

  /** A row goes exactly when its session is evicted or removed. */
  lemma RowGoesIff(c: Config, s: State, e: Event, k: nat)
    requires HasRow(s, k)
    ensures !HasRow(Step(c, s, e), k) <==> Deletes(s, e, s.assets[k].key.session)
  {
    match e
    case ToStart(candidates, begin) =>
      if s.phase == Idle && s.work != [] && Applies(s.assets, s.work[0]) { StartKeepsRow(c, s, candidates, begin, k); }
    case ToResume(outcome, begin) =>
      if s.phase != Idle && s.work != [] && Applies(s.assets, s.work[0])
        && (s.phase.Removing? <==> s.work[0].RemoveOp?) {
        ResumeRow(c, s, outcome, begin, k);
      }
    case ToWrite(id, samples, rate) => if IsRecorder(s, id) { WriteKeepsRow(c, s, id, samples, rate, k); }
    case _ =>
  }

  lemma WriteKeepsRow(c: Config, s: State, id: nat, samples: nat, rate: int, k: nat)
    requires IsRecorder(s, id) && HasRow(s, k)
    ensures HasRow(Write(c, s, id, samples, rate), k)
  {
  }

  lemma InsertKeepsRow(assets: seq<Asset>, id: nat, row: Row, k: nat)
    requires id < |assets| && row != Absent && k < |assets| && assets[k].row != Absent
    ensures Insert(assets, id, row)[k].row != Absent
  {
  }

  lemma CheckKeepsRow(c: Config, s: State, id: nat, candidates: seq<Session>, begin: set<Session>, k: nat)
    requires id < |s.assets|
    ensures HasRow(CheckFor(c, s, id, candidates, begin), k) <==> HasRow(s, k)
  {
  }

  lemma StartKeepsRow(c: Config, s: State, candidates: seq<Session>, begin: set<Session>, k: nat)
    requires s.phase == Idle && s.work != [] && Applies(s.assets, s.work[0]) && HasRow(s, k)
    ensures HasRow(Start(c, s, candidates, begin), k)
  {
    match s.work[0]
    case InputOp(id, _, reserved) =>
      var t := s.(assets := Insert(s.assets, id, if reserved then Pending else Missing));
      InsertKeepsRow(s.assets, id, if reserved then Pending else Missing, k);
      CheckKeepsRow(c, t, id, candidates, begin, k);
    case InitOp(id, bytes) =>
      var t := s.(assets := Insert(s.assets, id, if s.assets[id].failed then Truncated else Pending));
      InsertKeepsRow(s.assets, id, if s.assets[id].failed then Truncated else Pending, k);
      CheckKeepsRow(c, t, id, candidates, begin, k);
    case FrameOp(id, _) => CheckKeepsRow(c, s, id, candidates, begin, k);
    case _ =>
  }

  lemma ResumeRow(c: Config, s: State, outcome: Outcome, begin: set<Session>, k: nat)
    requires s.phase != Idle && s.work != [] && Applies(s.assets, s.work[0])
    requires (s.phase.Removing? <==> s.work[0].RemoveOp?) && HasRow(s, k)
    ensures !HasRow(Resume(c, s, outcome, begin), k) <==> Deletes(s, ToResume(outcome, begin), s.assets[k].key.session)
  {
    match s.phase
    case Evicting(victim, bytes, rest) =>
      CheckKeepsRow(c, RowsRemoved(s, victim, bytes), s.work[0].id, rest, begin, k);
    case Removing(_) =>
    case _ => RetainingKeepsRow(c, s, outcome, begin, k);
  }

  lemma RetainingKeepsRow(c: Config, s: State, outcome: Outcome, begin: set<Session>, k: nat)
    requires s.phase.Answered? || s.phase.Writing? || s.phase.Discarding? || s.phase.Unwinding?
    requires s.work != [] && Applies(s.assets, s.work[0]) && !s.work[0].RemoveOp? && HasRow(s, k)
    ensures HasRow(Resume(c, s, outcome, begin), k)
  {
    match s.phase
    case Answered(_) => RefusedKeepsRow(s, k);
    case Writing =>
      FailedKeepsRow(s, k);
      CommittedKeepsRow(s, k);
    case _ =>
  }

  lemma RefusedKeepsRow(s: State, k: nat)
    requires s.work != [] && Applies(s.assets, s.work[0]) && !s.work[0].RemoveOp? && HasRow(s, k)
    ensures HasRow(Refused(s), k)
  {
  }

  lemma FailedKeepsRow(s: State, k: nat)
    requires s.work != [] && Applies(s.assets, s.work[0]) && !s.work[0].RemoveOp? && HasRow(s, k)
    ensures HasRow(WriteFailed(s), k)
  {
  }

  lemma CommittedKeepsRow(s: State, k: nat)
    requires s.work != [] && Applies(s.assets, s.work[0]) && !s.work[0].RemoveOp? && HasRow(s, k)
    ensures HasRow(Committed(s), k)
  {
  }

  // ----- over whole runs -----

  /** The state before event `n`. */
  function At(c: Config, initial: State, events: seq<Event>, n: nat): State
    requires n <= |events|
  {
    Run(c, initial, events[..n])
  }

  lemma NextAt(c: Config, initial: State, events: seq<Event>, n: nat)
    requires n < |events|
    ensures At(c, initial, events, n + 1) == Step(c, At(c, initial, events, n), events[n])
  {
    assert events[..n + 1][..n] == events[..n];
  }

  /** Every eviction of a run began at a moment when the store was over its ceiling. */
  lemma {:induction false} EvictionWasNeeded(c: Config, initial: State, events: seq<Event>, n: nat) returns (m: nat)
    requires Opened(initial) && n <= |events| && At(c, initial, events, n).phase.Evicting?
    ensures m <= n && OverCeiling(c, At(c, initial, events, m))
    ensures At(c, initial, events, m).phase == At(c, initial, events, n).phase
    decreases n
  {
    m := n;
    if n > 0 {
      NextAt(c, initial, events, n - 1);
      if At(c, initial, events, n).phase == At(c, initial, events, n - 1).phase {
        m := EvictionWasNeeded(c, initial, events, n - 1);
      } else {
        EvictionBeginsOver(c, At(c, initial, events, n - 1), events[n - 1]);
      }
    }
  }

  ghost predicate NeverOver(c: Config, initial: State, events: seq<Event>) {
    forall n {:trigger At(c, initial, events, n)} :: 0 <= n <= |events| ==> !OverCeiling(c, At(c, initial, events, n))
  }

  /** A store that stays under its ceiling, or has none, deletes a row only when its session is
      removed. */
  lemma UnderCeilingOnlyRemovals(c: Config, initial: State, events: seq<Event>, n: nat, k: nat)
    requires Opened(initial) && NeverOver(c, initial, events) && n < |events|
    requires HasRow(At(c, initial, events, n), k) && !HasRow(At(c, initial, events, n + 1), k)
    ensures var s := At(c, initial, events, n);
      s.phase.Removing? && s.work != [] && s.work[0] == RemoveOp(s.assets[k].key.session)
  {
    var s := At(c, initial, events, n);
    NextAt(c, initial, events, n);
    RowGoesIff(c, s, events[n], k);
    if s.phase.Evicting? {
      var m := EvictionWasNeeded(c, initial, events, n);
    }
  }
}
