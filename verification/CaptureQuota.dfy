/** The capture library's retention quota (apps/realtime-gateway/src/library.ts): concurrent
    ingests insert first, evict oldest-first, check again, and roll themselves back. A state is
    the library between two atomic segments; segments interleave freely, which includes every
    order the per-capture queues of CaptureQueue.dfy allow. */
module CaptureQuota {
  import opened Prelude

  /** A row of the table, in eviction order. `kept` marks captures present at open or whose
      ingest returned before the library closed. */
  datatype Row = Row(bytes: nat, present: bool, corrected: bool, promoted: bool, kept: bool)

  /** Where an ingest is suspended, or how it ended; `Left` is a return that found the library
      closed. */
  datatype Phase =
    | Asked
    | Storing
    | Inserted
    | Evicting(rest: seq<nat>)
    | Removing(victim: nat, rest: seq<nat>)
    | Checking
    | RollingBack
    | Returned
    | Left
    | Refused

  datatype Ingest = Ingest(bytes: nat, row: nat, phase: Phase)

  datatype State = State(rows: seq<Row>, ingests: seq<Ingest>, closed: bool)

  /** The quota, if the deployment set one. */
  type Quota = Option<nat>

  predicate Pinned(r: Row) {
    r.corrected || r.promoted
  }

  function PresentBytes(r: Row): nat {
    if r.present then r.bytes else 0
  }

  function PinnedBytes(r: Row): nat {
    if r.present && Pinned(r) then r.bytes else 0
  }

  function KeptBytes(r: Row): nat {
    if r.present && r.kept then r.bytes else 0
  }

  function Total(s: State): nat {
    Sum(PresentBytes, s.rows)
  }

  /** Unpinned rows from `k` on, oldest first, never `exclude`. */
  function CandidatesFrom(rows: seq<Row>, exclude: int, k: nat): (r: seq<nat>)
    requires k <= |rows|
    decreases |rows| - k
  {
    if k == |rows| then []
    else
      (if rows[k].present && !Pinned(rows[k]) && k != exclude then [k] else [])
      + CandidatesFrom(rows, exclude, k + 1)
  }

  function Deleted(r: Row): Row {
    r.(present := false)
  }

  function WithRow(s: State, k: nat, r: Row): State
    requires k < |s.rows|
  {
    s.(rows := s.rows[k := r])
  }

  function WithPhase(s: State, i: nat, phase: Phase): State
    requires i < |s.ingests|
  {
    s.(ingests := s.ingests[i := s.ingests[i].(phase := phase)])
  }

  predicate OverQuota(q: Quota, s: State) {
    q.Some? && Total(s) > q.value
  }

  datatype Event =
    | Ask(bytes: nat)
    | AdmitIngest(i: nat)
    | Stored(i: nat, ok: bool)
    | PickVictims(i: nat)
    | EvictTurn(i: nat)
    | EvictRow(i: nat)
    | Check(i: nat)
    | RollBack(i: nat)
    | Correct(k: nat, corrected: bool)
    | Promote(k: nat)
    | Remove(k: nat)
    | Close

  // ----- the segments -----

  /** Quota admission: is there room beside the curated captures alone? */
  function AdmitStep(q: Quota, s: State, i: nat): State
    requires i < |s.ingests|
  {
    if q.Some? && Sum(PinnedBytes, s.rows) + s.ingests[i].bytes > q.value then WithPhase(s, i, Refused)
    else WithPhase(s, i, Storing)
  }

  /** The insert is the commit point of the exclusive work. */
  function StoredStep(s: State, i: nat, ok: bool): State
    requires i < |s.ingests|
  {
    if !ok then WithPhase(s, i, Refused)
    else
      s.(rows := s.rows + [Row(s.ingests[i].bytes, true, false, false, false)],
         ingests := s.ingests[i := Ingest(s.ingests[i].bytes, |s.rows|, Inserted)])
  }

  /** The candidates are read once the exclusive work has been awaited. */
  function PickVictimsStep(s: State, i: nat): State
    requires i < |s.ingests|
  {
    WithPhase(s, i, Evicting(CandidatesFrom(s.rows, s.ingests[i].row, 0)))
  }

  /** The eviction loop's head. */
  function EvictTurnStep(q: Quota, s: State, i: nat): State
    requires i < |s.ingests| && s.ingests[i].phase.Evicting?
  {
    var rest := s.ingests[i].phase.rest;
    if rest == [] || s.closed || !OverQuota(q, s) then WithPhase(s, i, Checking)
    else WithPhase(s, i, Removing(rest[0], rest[1..]))
  }

  /** The victim is looked at again under its own lock. */
  function EvictRowStep(s: State, i: nat): State
    requires i < |s.ingests| && s.ingests[i].phase.Removing?
  {
    var Removing(victim, rest) := s.ingests[i].phase;
    var t := WithPhase(s, i, Evicting(rest));
    if victim < |s.rows| && s.rows[victim].present && !Pinned(s.rows[victim])
    then WithRow(t, victim, Deleted(s.rows[victim])) else t
  }

  /** The last word of an ingest: return, or roll back if the bound is broken after all. */
  function CheckStep(q: Quota, s: State, i: nat): State
    requires i < |s.ingests|
  {
    if !s.closed && OverQuota(q, s) then WithPhase(s, i, RollingBack)
    else
      var t := WithPhase(s, i, if s.closed then Left else Returned);
      var k := s.ingests[i].row;
      if !s.closed && k < |s.rows| then WithRow(t, k, s.rows[k].(kept := true)) else t
  }

  function RollBackStep(s: State, i: nat): State
    requires i < |s.ingests|
  {
    var t := WithPhase(s, i, Refused);
    var k := s.ingests[i].row;
    if k < |s.rows| && s.rows[k].present then WithRow(t, k, Deleted(s.rows[k])) else t
  }

  predicate InPhase(s: State, i: nat, phase: Phase) {
    i < |s.ingests| && s.ingests[i].phase == phase
  }

  predicate IsPresent(s: State, k: nat) {
    k < |s.rows| && s.rows[k].present
  }

  /** One atomic segment; an event that cannot happen leaves the library alone. */
  function Step(q: Quota, s: State, e: Event): State {
    match e
    case Ask(bytes) => if s.closed then s else s.(ingests := s.ingests + [Ingest(bytes, 0, Asked)])
    case AdmitIngest(i) => if InPhase(s, i, Asked) then AdmitStep(q, s, i) else s
    case Stored(i, ok) => if InPhase(s, i, Storing) then StoredStep(s, i, ok) else s
    case PickVictims(i) => if InPhase(s, i, Inserted) then PickVictimsStep(s, i) else s
    case EvictTurn(i) => if i < |s.ingests| && s.ingests[i].phase.Evicting? then EvictTurnStep(q, s, i) else s
    case EvictRow(i) => if i < |s.ingests| && s.ingests[i].phase.Removing? then EvictRowStep(s, i) else s
    case Check(i) => if InPhase(s, i, Checking) then CheckStep(q, s, i) else s
    case RollBack(i) => if InPhase(s, i, RollingBack) then RollBackStep(s, i) else s
    case Correct(k, corrected) => if IsPresent(s, k) then WithRow(s, k, s.rows[k].(corrected := corrected)) else s
    case Promote(k) => if IsPresent(s, k) then WithRow(s, k, s.rows[k].(promoted := true)) else s
    case Remove(k) => if IsPresent(s, k) then WithRow(s, k, Deleted(s.rows[k])) else s
    case Close => s.(closed := true)
  }

  function Run(q: Quota, initial: State, events: seq<Event>): State {
    if events == [] then initial else Step(q, Run(q, initial, events[..|events| - 1]), events[|events| - 1])
  }

  // ----- the bound -----

  ghost predicate Inv(q: Quota, bound: nat, s: State) {
    q.Some? ==> q.value <= bound && Sum(KeptBytes, s.rows) <= bound
  }

  lemma KeptIsPartOfTotal(s: State)
    ensures Sum(KeptBytes, s.rows) <= Total(s)
  {
    SumAtMost(KeptBytes, PresentBytes, s.rows);
  }

  lemma StepKeeps(q: Quota, bound: nat, s: State, e: Event)
    requires Inv(q, bound, s)
    ensures Inv(q, bound, Step(q, s, e))
  {
    var t := Step(q, s, e);
    match e
    case Stored(i, ok) =>
      if InPhase(s, i, Storing) && ok {
        SumAppend(KeptBytes, s.rows, Row(s.ingests[i].bytes, true, false, false, false));
      }
    case EvictRow(i) =>
      if i < |s.ingests| && s.ingests[i].phase.Removing? { RowChangeKeeps(s, t, s.ingests[i].phase.victim); }
    case Check(i) => if InPhase(s, i, Checking) { CheckKeeps(q, s, i); }
    case RollBack(i) => if InPhase(s, i, RollingBack) { RowChangeKeeps(s, t, s.ingests[i].row); }
    case Correct(k, _) => RowChangeKeeps(s, t, k);
    case Promote(k) => RowChangeKeeps(s, t, k);
    case Remove(k) => RowChangeKeeps(s, t, k);
    case _ =>
  }

  /** Changing one row without keeping it anew cannot add kept bytes. */
  lemma RowChangeKeeps(s: State, t: State, k: nat)
    requires t.rows == s.rows
      || (k < |s.rows| == |t.rows| && t.rows == s.rows[k := t.rows[k]] && KeptBytes(t.rows[k]) <= KeptBytes(s.rows[k]))
    ensures Sum(KeptBytes, t.rows) <= Sum(KeptBytes, s.rows)
  {
    if k < |s.rows| && t.rows != s.rows {
      SumUpdate(KeptBytes, s.rows, k, t.rows[k]);
    }
  }

  /** An ingest returns only while the whole table fits, so what is kept fits too. */
  lemma CheckKeeps(q: Quota, s: State, i: nat)
    requires InPhase(s, i, Checking)
    ensures var t := CheckStep(q, s, i);
      Sum(KeptBytes, t.rows) <= Sum(KeptBytes, s.rows) || (q.Some? ==> Sum(KeptBytes, t.rows) <= Total(s) <= q.value)
  {
    var t := CheckStep(q, s, i);
    var k := s.ingests[i].row;
    if t.rows != s.rows {
      assert t.rows == s.rows[k := s.rows[k].(kept := true)];
      SumUpdate(PresentBytes, s.rows, k, s.rows[k].(kept := true));
      KeptIsPartOfTotal(t);
    }
  }

  /** A library just opened: its rows are kept, nothing is going on. */
  predicate Opened(s: State) {
    s.ingests == [] && !s.closed && forall k :: 0 <= k < |s.rows| ==> s.rows[k].kept
  }

  lemma {:induction false} RunKeeps(q: Quota, initial: State, events: seq<Event>, bound: nat)
    requires Opened(initial) && q.Some? && q.value <= bound && Total(initial) <= bound
    ensures Inv(q, bound, Run(q, initial, events))
    decreases |events|
  {
    if events == [] {
      KeptIsPartOfTotal(initial);
    } else {
      RunKeeps(q, initial, events[..|events| - 1], bound);
      StepKeeps(q, bound, Run(q, initial, events[..|events| - 1]), events[|events| - 1]);
    }
  }

  /** However ingests, evictions, pins, removals and rollbacks interleave: the captures that were
      there at open or whose ingest returned before `close` never exceed the quota, or what was
      there at open if that was more. */
  lemma RetentionQuota(q: Quota, initial: State, events: seq<Event>)
    requires Opened(initial) && q.Some?
    ensures Sum(KeptBytes, Run(q, initial, events).rows) <= Max(q.value, Total(initial))
  {
    RunKeeps(q, initial, events, Max(q.value, Total(initial)));
  }

  /** An ingest that returns while the library is open leaves the whole table within the quota. */
  lemma ReturnMeansWithinQuota(q: Quota, s: State, i: nat)
    requires q.Some? && InPhase(s, i, Checking) && !s.closed && InPhase(Step(q, s, Check(i)), i, Returned)
    ensures Total(Step(q, s, Check(i))) <= q.value
  {
    var k := s.ingests[i].row;
    if k < |s.rows| { SumUpdate(PresentBytes, s.rows, k, s.rows[k].(kept := true)); }
  }

  // ----- curated work -----

  /** The rollback of the very ingest that brought row `k`. */
  predicate RollsBack(s: State, e: Event, k: nat) {
    e.RollBack? && InPhase(s, e.i, RollingBack) && s.ingests[e.i].row == k
  }

  /** Which segments can take away a row that is corrected or promoted at that moment: a
      person's own removal, and the rollback of the ingest that brought it. Never an eviction. */
  lemma PinnedRowsSurviveEviction(q: Quota, s: State, e: Event, k: nat)
    requires IsPresent(s, k) && (s.rows[k].corrected || s.rows[k].promoted)
    ensures !IsPresent(Step(q, s, e), k) <==> e == Remove(k) || RollsBack(s, e, k)
  {
  }

  /** The state before event `n` of a run. */
  function At(q: Quota, initial: State, events: seq<Event>, n: nat): State
    requires n <= |events|
  {
    Run(q, initial, events[..n])
  }

  lemma NextAt(q: Quota, initial: State, events: seq<Event>, n: nat)
    requires n < |events|
    ensures At(q, initial, events, n + 1) == Step(q, At(q, initial, events, n), events[n])
  {
    assert events[..n + 1][..n] == events[..n];
  }

  /** Row `k` is curated when event `n` comes, and that is neither its removal nor its rollback. */
  ghost predicate Spared(q: Quota, initial: State, events: seq<Event>, k: nat, n: nat)
    requires n < |events|
  {
    var s := At(q, initial, events, n);
    && (IsPresent(s, k) ==> s.rows[k].corrected || s.rows[k].promoted)
    && events[n] != Remove(k) && !RollsBack(s, events[n], k)
  }

  /** Over a whole run: a capture that stays curated is still there at the end, whatever was
      evicted, unless a person removed it or its own ingest rolled back. */
  lemma {:induction false} CuratedWorkStays(q: Quota, initial: State, events: seq<Event>, k: nat, i: nat, j: nat)
    requires i <= j <= |events| && IsPresent(At(q, initial, events, i), k)
    requires forall n :: i <= n < j ==> Spared(q, initial, events, k, n)
    ensures IsPresent(At(q, initial, events, j), k)
    decreases j - i
  {
    if i < j {
      CuratedWorkStays(q, initial, events, k, i, j - 1);
      NextAt(q, initial, events, j - 1);
      assert Spared(q, initial, events, k, j - 1);
      PinnedRowsSurviveEviction(q, At(q, initial, events, j - 1), events[j - 1], k);
    }
  }

  lemma RunMore(q: Quota, initial: State, events: seq<Event>, e: Event)
    ensures Run(q, initial, events + [e]) == Step(q, Run(q, initial, events), e)
  {
    assert (events + [e])[..|events|] == events;
  }

  const TEN := Some(10)
  const OLD := Row(10, true, false, false, true)
  const NEW := Row(10, true, false, false, false)
  const ONE_ROW := State([OLD], [], false)

  function Lone(rows: seq<Row>, row: nat, phase: Phase): State {
    State(rows, [Ingest(10, row, phase)], false)
  }

  lemma TwoRows(x: Row, y: Row)
    ensures Sum(PresentBytes, [x, y]) == PresentBytes(x) + PresentBytes(y)
  {
    assert [x, y] == [x] + [y] && [x] == [] + [x];
    SumAppend(PresentBytes, [x], y);
    SumAppend(PresentBytes, [], x);
  }

  /** A second capture is stored beside the one that fills the quota. */
  lemma SecondIsStored() returns (events: seq<Event>)
    ensures Run(TEN, ONE_ROW, events) == Lone([OLD, NEW], 1, Evicting([0]))
  {
    events := [];
    RunMore(TEN, ONE_ROW, events, Ask(10));
    events := events + [Ask(10)];
    SumAppend(PinnedBytes, [], OLD);
    assert [] + [OLD] == [OLD];
    RunMore(TEN, ONE_ROW, events, AdmitIngest(0));
    events := events + [AdmitIngest(0)];
    assert Run(TEN, ONE_ROW, events) == Lone([OLD], 0, Storing);
    assert [OLD] + [NEW] == [OLD, NEW];
    assert CandidatesFrom([OLD, NEW], 1, 2) == [] && CandidatesFrom([OLD, NEW], 1, 1) == [];
    assert CandidatesFrom([OLD, NEW], 1, 0) == [0];
    RunMore(TEN, ONE_ROW, events, Stored(0, true));
    events := events + [Stored(0, true)];
    RunMore(TEN, ONE_ROW, events, PickVictims(0));
    events := events + [PickVictims(0)];
  }

  const CURATED := [OLD.(corrected := true), NEW]

  lemma CorrectionComesInTime()
    ensures Step(TEN, Lone([OLD, NEW], 1, Evicting([0])), Correct(0, true)) == Lone(CURATED, 1, Evicting([0]))
    ensures Step(TEN, Lone(CURATED, 1, Evicting([0])), EvictTurn(0)) == Lone(CURATED, 1, Removing(0, []))
    ensures Step(TEN, Lone(CURATED, 1, Removing(0, [])), EvictRow(0)) == Lone(CURATED, 1, Evicting([]))
  {
    TwoRows(CURATED[0], CURATED[1]);
    var victims: seq<nat> := [0];
    assert victims[1..] == [];
  }

  lemma NothingLeftToEvict()
    ensures Step(TEN, Lone(CURATED, 1, Evicting([])), EvictTurn(0)) == Lone(CURATED, 1, Checking)
    ensures Step(TEN, Lone(CURATED, 1, Checking), Check(0)) == Lone(CURATED, 1, RollingBack)
  {
    TwoRows(CURATED[0], CURATED[1]);
  }

  /** The first is corrected before its eviction, so the second's ingest has to roll back. */
  lemma IngestMustRollBack() returns (events: seq<Event>)
    ensures Run(TEN, ONE_ROW, events) == Lone(CURATED, 1, RollingBack)
  {
    events := SecondIsStored();
    CorrectionComesInTime();
    NothingLeftToEvict();
    RunMore(TEN, ONE_ROW, events, Correct(0, true));
    events := events + [Correct(0, true)];
    RunMore(TEN, ONE_ROW, events, EvictTurn(0));
    events := events + [EvictTurn(0)];
    RunMore(TEN, ONE_ROW, events, EvictRow(0));
    events := events + [EvictRow(0)];
    RunMore(TEN, ONE_ROW, events, EvictTurn(0));
    events := events + [EvictTurn(0)];
    RunMore(TEN, ONE_ROW, events, Check(0));
    events := events + [Check(0)];
  }

  /** So curated work is not quite safe: the new capture is corrected while its rollback waits
      its turn, and is deleted all the same. */
  lemma RollBackCanDeleteCuratedWork()
    ensures exists events ::
      var s := Run(TEN, ONE_ROW, events);
      IsPresent(s, 1) && Pinned(s.rows[1]) && !IsPresent(Step(TEN, s, RollBack(0)), 1)
  {
    var events := IngestMustRollBack();
    RunMore(TEN, ONE_ROW, events, Correct(1, true));
    var s := Run(TEN, ONE_ROW, events + [Correct(1, true)]);
    assert IsPresent(s, 1) && Pinned(s.rows[1]) && !IsPresent(Step(TEN, s, RollBack(0)), 1);
  }

  // ----- closing -----

  /** An ingest that has not ended, or ended only after the library closed. */
  predicate InProgress(g: Ingest) {
    g.phase != Returned && g.phase != Refused
  }

  function ProgressBytes(g: Ingest): nat {
    if InProgress(g) then g.bytes else 0
  }

  function Going(g: Ingest): nat {
    if InProgress(g) then 1 else 0
  }

  function UnkeptBytes(r: Row): nat {
    if r.present && !r.kept then r.bytes else 0
  }

  /** Ingest `g` stored row `k` of these bytes and has not returned it. */
  predicate Owns(g: Ingest, k: nat, bytes: nat) {
    g.row == k && g.bytes == bytes && InProgress(g) && g.phase != Asked && g.phase != Storing
  }

  /** A row that is there and not kept is the row of an ingest in progress. */
  ghost predicate Owned(s: State) {
    forall k :: 0 <= k < |s.rows| && s.rows[k].present && !s.rows[k].kept ==>
      exists i :: 0 <= i < |s.ingests| && Owns(s.ingests[i], k, s.rows[k].bytes)
  }

  /** An ingest that keeps its row keeps owning it. */
  lemma PhaseKeepsOwned(s: State, t: State, i: nat, g: Ingest)
    requires Owned(s) && i < |s.ingests| && t.ingests == s.ingests[i := g] && |t.rows| == |s.rows|
    requires forall k :: 0 <= k < |s.rows| ==> t.rows[k].bytes == s.rows[k].bytes
    requires forall k :: 0 <= k < |s.rows| && t.rows[k].present && !t.rows[k].kept ==>
      s.rows[k].present && !s.rows[k].kept && (Owns(s.ingests[i], k, s.rows[k].bytes) ==> Owns(g, k, s.rows[k].bytes))
    ensures Owned(t)
  {
    forall k | 0 <= k < |t.rows| && t.rows[k].present && !t.rows[k].kept
      ensures exists j :: 0 <= j < |t.ingests| && Owns(t.ingests[j], k, t.rows[k].bytes)
    {
      var j :| 0 <= j < |s.ingests| && Owns(s.ingests[j], k, s.rows[k].bytes);
      assert Owns(t.ingests[j], k, t.rows[k].bytes);
    }
  }

  lemma RowsKeepOwned(s: State, t: State)
    requires Owned(s) && t.ingests == s.ingests && |t.rows| == |s.rows|
    requires forall k :: 0 <= k < |s.rows| ==>
      t.rows[k].bytes == s.rows[k].bytes && t.rows[k].kept == s.rows[k].kept
        && (t.rows[k].present ==> s.rows[k].present)
    ensures Owned(t)
  {
    forall k | 0 <= k < |t.rows| && t.rows[k].present && !t.rows[k].kept
      ensures exists j :: 0 <= j < |t.ingests| && Owns(t.ingests[j], k, t.rows[k].bytes)
    {
      var j :| 0 <= j < |s.ingests| && Owns(s.ingests[j], k, s.rows[k].bytes);
      assert Owns(t.ingests[j], k, t.rows[k].bytes);
    }
  }

  lemma StoredKeepsOwned(s: State, i: nat)
    requires Owned(s) && InPhase(s, i, Storing)
    ensures Owned(StoredStep(s, i, true))
  {
    var t := StoredStep(s, i, true);
    forall k | 0 <= k < |t.rows| && t.rows[k].present && !t.rows[k].kept
      ensures exists j :: 0 <= j < |t.ingests| && Owns(t.ingests[j], k, t.rows[k].bytes)
    {
      if k == |s.rows| {
        assert Owns(t.ingests[i], k, t.rows[k].bytes);
      } else {
        var j :| 0 <= j < |s.ingests| && Owns(s.ingests[j], k, s.rows[k].bytes);
        assert Owns(t.ingests[j], k, t.rows[k].bytes);
      }
    }
  }

  lemma AskKeepsOwned(s: State, bytes: nat)
    requires Owned(s)
    ensures Owned(s.(ingests := s.ingests + [Ingest(bytes, 0, Asked)]))
  {
    var t := s.(ingests := s.ingests + [Ingest(bytes, 0, Asked)]);
    forall k | 0 <= k < |t.rows| && t.rows[k].present && !t.rows[k].kept
      ensures exists j :: 0 <= j < |t.ingests| && Owns(t.ingests[j], k, t.rows[k].bytes)
    {
      var j :| 0 <= j < |s.ingests| && Owns(s.ingests[j], k, s.rows[k].bytes);
      assert Owns(t.ingests[j], k, t.rows[k].bytes);
    }
  }

  lemma StoringKeepsOwned(s: State, i: nat, ok: bool)
    requires Owned(s) && InPhase(s, i, Storing)
    ensures Owned(StoredStep(s, i, ok))
  {
    if ok {
      StoredKeepsOwned(s, i);
    } else {
      PhaseKeepsOwned(s, StoredStep(s, i, ok), i, s.ingests[i].(phase := Refused));
    }
  }

  lemma EvictingKeepsOwned(s: State, i: nat)
    requires Owned(s) && i < |s.ingests| && s.ingests[i].phase.Removing?
    ensures Owned(EvictRowStep(s, i))
  {
    PhaseKeepsOwned(s, EvictRowStep(s, i), i, s.ingests[i].(phase := Evicting(s.ingests[i].phase.rest)));
  }

  lemma CheckingKeepsOwned(q: Quota, s: State, i: nat)
    requires Owned(s) && InPhase(s, i, Checking)
    ensures Owned(CheckStep(q, s, i))
  {
    var t := CheckStep(q, s, i);
    PhaseKeepsOwned(s, t, i, t.ingests[i]);
  }

  lemma RollingBackKeepsOwned(s: State, i: nat)
    requires Owned(s) && InPhase(s, i, RollingBack)
    ensures Owned(RollBackStep(s, i))
  {
    PhaseKeepsOwned(s, RollBackStep(s, i), i, s.ingests[i].(phase := Refused));
  }

  lemma StepKeepsOwned(q: Quota, s: State, e: Event)
    requires Owned(s)
    ensures Owned(Step(q, s, e))
  {
    hide Owned;
    var t := Step(q, s, e);
    match e
    case Ask(bytes) => if !s.closed { AskKeepsOwned(s, bytes); }
    case AdmitIngest(i) => if InPhase(s, i, Asked) { PhaseKeepsOwned(s, t, i, t.ingests[i]); }
    case Stored(i, ok) => if InPhase(s, i, Storing) { StoringKeepsOwned(s, i, ok); }
    case PickVictims(i) => if InPhase(s, i, Inserted) { PhaseKeepsOwned(s, t, i, t.ingests[i]); }
    case EvictTurn(i) =>
      if i < |s.ingests| && s.ingests[i].phase.Evicting? { PhaseKeepsOwned(s, t, i, t.ingests[i]); }
    case EvictRow(i) => if i < |s.ingests| && s.ingests[i].phase.Removing? { EvictingKeepsOwned(s, i); }
    case Check(i) => if InPhase(s, i, Checking) { CheckingKeepsOwned(q, s, i); }
    case RollBack(i) => if InPhase(s, i, RollingBack) { RollingBackKeepsOwned(s, i); }
    case Correct(_, _) => RowsKeepOwned(s, t);
    case Promote(_) => RowsKeepOwned(s, t);
    case Remove(_) => RowsKeepOwned(s, t);
    case Close => RowsKeepOwned(s, t);
  }

  lemma {:induction false} RunKeepsOwned(q: Quota, initial: State, events: seq<Event>)
    requires Opened(initial)
    ensures Owned(Run(q, initial, events))
    decreases |events|
  {
    if events != [] {
      RunKeepsOwned(q, initial, events[..|events| - 1]);
      StepKeepsOwned(q, Run(q, initial, events[..|events| - 1]), events[|events| - 1]);
    }
  }

  /** Rows owned by ingests weigh no more than the ingests. */
  lemma {:induction false} OwnedWeighsLess(rows: seq<Row>, ingests: seq<Ingest>)
    requires Owned(State(rows, ingests, false))
    ensures Sum(UnkeptBytes, rows) <= Sum(ProgressBytes, ingests)
    decreases |ingests|
  {
    if ingests == [] {
      SumZero(UnkeptBytes, rows);
    } else {
      var before, last := ingests[..|ingests| - 1], ingests[|ingests| - 1];
      var rest :=
        if last.row < |rows| && Owns(last, last.row, rows[last.row].bytes) then
          rows[last.row := Deleted(rows[last.row])]
        else rows;
      if rest != rows { SumUpdate(UnkeptBytes, rows, last.row, Deleted(rows[last.row])); }
      forall k | 0 <= k < |rest| && rest[k].present && !rest[k].kept
        ensures exists i :: 0 <= i < |before| && Owns(before[i], k, rest[k].bytes)
      {
        var i :| 0 <= i < |ingests| && Owns(ingests[i], k, rows[k].bytes);
        assert before[i] == ingests[i];
      }
      OwnedWeighsLess(rest, before);
    }
  }

  lemma {:induction false} TotalIsKeptAndUnkept(rows: seq<Row>)
    ensures Sum(PresentBytes, rows) == Sum(KeptBytes, rows) + Sum(UnkeptBytes, rows)
    decreases |rows|
  {
    if rows != [] { TotalIsKeptAndUnkept(rows[..|rows| - 1]); }
  }

  /** At every moment of every run the table holds at most the quota, or what was there at open,
      and the captures of the ingests in progress. */
  lemma ExcessIsInProgress(q: Quota, initial: State, events: seq<Event>)
    requires Opened(initial) && q.Some?
    ensures var s := Run(q, initial, events); Total(s) <= Max(q.value, Total(initial)) + Sum(ProgressBytes, s.ingests)
  {
    var s := Run(q, initial, events);
    RetentionQuota(q, initial, events);
    RunKeepsOwned(q, initial, events);
    OwnedWeighsLess(s.rows, s.ingests);
    TotalIsKeptAndUnkept(s.rows);
  }

  /** A segment of a closed library moves at most one ingest, and none into progress. */
  lemma OneIngestMoves(q: Quota, s: State, e: Event)
    requires s.closed
    ensures var t := Step(q, s, e);
      && t.closed
      && (t.ingests != s.ingests ==>
            && (e.AdmitIngest? || e.Stored? || e.PickVictims? || e.EvictTurn? || e.EvictRow? || e.Check? || e.RollBack?)
            && e.i < |s.ingests| && |t.ingests| == |s.ingests| && t.ingests == s.ingests[e.i := t.ingests[e.i]]
            && ProgressBytes(t.ingests[e.i]) <= ProgressBytes(s.ingests[e.i]))
  {
  }

  /** After `close` nothing new comes into progress. */
  lemma ClosedStepAddsNothing(q: Quota, s: State, e: Event)
    requires s.closed
    ensures Step(q, s, e).closed && Sum(ProgressBytes, Step(q, s, e).ingests) <= Sum(ProgressBytes, s.ingests)
  {
    hide Step;
    var t := Step(q, s, e);
    OneIngestMoves(q, s, e);
    if t.ingests != s.ingests {
      SumUpdate(ProgressBytes, s.ingests, e.i, t.ingests[e.i]);
    }
  }

  lemma {:induction false} NothingAddedSinceClose(q: Quota, initial: State, events: seq<Event>, n: nat)
    requires n <= |events| && At(q, initial, events, n).closed
    ensures Sum(ProgressBytes, Run(q, initial, events).ingests) <= Sum(ProgressBytes, At(q, initial, events, n).ingests)
    ensures Run(q, initial, events).closed
    decreases |events| - n
  {
    if n == |events| {
      assert events[..n] == events;
    } else {
      NextAt(q, initial, events, n);
      ClosedStepAddsNothing(q, At(q, initial, events, n), events[n]);
      NothingAddedSinceClose(q, initial, events, n + 1);
    }
  }

  /** So what a close leaves over is no more than the captures of the ingests in progress when
      it came, whatever happens after it. */
  lemma CloseLeavesWhatWasInProgress(q: Quota, initial: State, events: seq<Event>, n: nat)
    requires Opened(initial) && q.Some? && n < |events| && events[n] == Close
    ensures Total(Run(q, initial, events))
         <= Max(q.value, Total(initial)) + Sum(ProgressBytes, At(q, initial, events, n).ingests)
  {
    NextAt(q, initial, events, n);
    NothingAddedSinceClose(q, initial, events, n + 1);
    ExcessIsInProgress(q, initial, events);
  }

  /** The comment's promise: at most one capture, of those in progress at `close`, over the bound. */
  ghost predicate AtMostOneCapture(bound: nat, ingests: seq<Ingest>, total: nat) {
    total <= bound || exists i :: 0 <= i < |ingests| && InProgress(ingests[i]) && total <= bound + ingests[i].bytes
  }

  /** It is kept whenever `n` ingests are in progress at the close. */
  ghost predicate KeptWith(n: nat) {
    forall q: Quota, initial: State, events: seq<Event>, c: nat ::
      Opened(initial) && q.Some? && c < |events| && events[c] == Close
      && Sum(Going, At(q, initial, events, c).ingests) == n ==>
        AtMostOneCapture(Max(q.value, Total(initial)), At(q, initial, events, c).ingests,
                         Total(Run(q, initial, events)))
  }

  lemma {:induction false} OneGoing(ingests: seq<Ingest>)
    requires Sum(Going, ingests) <= 1
    ensures Sum(ProgressBytes, ingests) == 0
      || exists i :: 0 <= i < |ingests| && InProgress(ingests[i]) && Sum(ProgressBytes, ingests) == ingests[i].bytes
    decreases |ingests|
  {
    if ingests != [] {
      var n := |ingests| - 1;
      OneGoing(ingests[..n]);
      if InProgress(ingests[n]) {
        NoneGoing(ingests[..n]);
      } else if Sum(ProgressBytes, ingests[..n]) != 0 {
        var i :| 0 <= i < n && InProgress(ingests[..n][i]) && Sum(ProgressBytes, ingests[..n]) == ingests[..n][i].bytes;
        assert InProgress(ingests[i]);
      }
    }
  }

  lemma {:induction false} NoneGoing(ingests: seq<Ingest>)
    requires Sum(Going, ingests) == 0
    ensures Sum(ProgressBytes, ingests) == 0
    decreases |ingests|
  {
    if ingests != [] { NoneGoing(ingests[..|ingests| - 1]); }
  }

  lemma OneIsKept(n: nat)
    requires n <= 1
    ensures KeptWith(n)
  {
    forall q: Quota, initial: State, events: seq<Event>, c: nat |
      Opened(initial) && q.Some? && c < |events| && events[c] == Close
        && Sum(Going, At(q, initial, events, c).ingests) == n
      ensures AtMostOneCapture(Max(q.value, Total(initial)), At(q, initial, events, c).ingests,
                               Total(Run(q, initial, events)))
    {
      CloseLeavesWhatWasInProgress(q, initial, events, c);
      OneGoing(At(q, initial, events, c).ingests);
    }
  }

  /** A library that is full, and `n` more captures of 10 bytes just inserted. */
  ghost predicate Crowded(s: State, n: nat) {
    && |s.ingests| == n && |s.rows| == n + 1 && s.rows[0] == OLD
    && (forall k :: 0 < k <= n ==> s.rows[k] == NEW)
    && forall k :: 0 <= k < n ==> s.ingests[k].bytes == 10 && s.ingests[k].phase == Inserted
  }

  lemma {:induction false} CrowdTotals(rows: seq<Row>)
    requires rows != [] && rows[0] == OLD && forall k :: 0 < k < |rows| ==> rows[k] == NEW
    ensures Sum(PresentBytes, rows) == 10 * |rows| && Sum(PinnedBytes, rows) == 0
    decreases |rows|
  {
    if |rows| > 1 {
      CrowdTotals(rows[..|rows| - 1]);
    } else {
      assert rows[..0] == [];
    }
  }

  lemma {:induction false} CrowdGathers(n: nat) returns (events: seq<Event>)
    ensures Crowded(Run(TEN, ONE_ROW, events), n) && !Run(TEN, ONE_ROW, events).closed
  {
    events := [];
    if n > 0 {
      var before := CrowdGathers(n - 1);
      CrowdTotals(Run(TEN, ONE_ROW, before).rows);
      RunMore(TEN, ONE_ROW, before, Ask(10));
      RunMore(TEN, ONE_ROW, before + [Ask(10)], AdmitIngest(n - 1));
      RunMore(TEN, ONE_ROW, before + [Ask(10)] + [AdmitIngest(n - 1)], Stored(n - 1, true));
      events := before + [Ask(10)] + [AdmitIngest(n - 1)] + [Stored(n - 1, true)];
    }
  }

  /** After `close` the first `k` ingests return without evicting anything. */
  lemma {:induction false} CrowdReturns(events: seq<Event>, n: nat, k: nat) returns (longer: seq<Event>)
    requires Crowded(Run(TEN, ONE_ROW, events), n) && Run(TEN, ONE_ROW, events).closed && k <= n
    ensures events <= longer
    ensures var s := Run(TEN, ONE_ROW, longer);
      && s.closed && s.rows == Run(TEN, ONE_ROW, events).rows && |s.ingests| == n
      && (forall i :: 0 <= i < k ==> s.ingests[i].phase == Left)
      && (forall i :: k <= i < n ==> s.ingests[i].phase == Inserted)
  {
    longer := events;
    if k > 0 {
      longer := CrowdReturns(events, n, k - 1);
      RunMore(TEN, ONE_ROW, longer, PickVictims(k - 1));
      RunMore(TEN, ONE_ROW, longer + [PickVictims(k - 1)], EvictTurn(k - 1));
      RunMore(TEN, ONE_ROW, longer + [PickVictims(k - 1)] + [EvictTurn(k - 1)], Check(k - 1));
      longer := longer + [PickVictims(k - 1)] + [EvictTurn(k - 1)] + [Check(k - 1)];
    }
  }

  /** `n` ingests in progress at a close over a full library all return, and all their bytes stay. */
  lemma ClosingLeavesAnyExcess(n: nat) returns (events: seq<Event>, c: nat)
    ensures c < |events| && events[c] == Close && Crowded(At(TEN, ONE_ROW, events, c), n)
    ensures var s := Run(TEN, ONE_ROW, events);
      s.closed && |s.ingests| == n && (forall i :: 0 <= i < n ==> s.ingests[i].phase == Left) && Total(s) == 10 + 10 * n
  {
    var before := CrowdGathers(n);
    RunMore(TEN, ONE_ROW, before, Close);
    events := CrowdReturns(before + [Close], n, n);
    c := |before|;
    assert events[..c] == (before + [Close])[..c] == before && events[c] == (before + [Close])[c];
    CrowdTotals(Run(TEN, ONE_ROW, events).rows);
  }

  lemma {:induction false} CrowdIsGoing(ingests: seq<Ingest>)
    requires forall k :: 0 <= k < |ingests| ==> ingests[k].phase == Inserted
    ensures Sum(Going, ingests) == |ingests|
    decreases |ingests|
  {
    if ingests != [] { CrowdIsGoing(ingests[..|ingests| - 1]); }
  }

  /** "At most one capture" is what a close leaves over, in all runs with `n` ingests in progress
      when it comes, if and only if `n` is at most one. */
  lemma AtMostOneCaptureIff(n: nat)
    ensures KeptWith(n) <==> n <= 1
  {
    if n <= 1 {
      OneIsKept(n);
    } else {
      var events, c := ClosingLeavesAnyExcess(n);
      var ingests := At(TEN, ONE_ROW, events, c).ingests;
      CrowdIsGoing(ingests);
      CrowdTotals(ONE_ROW.rows);
      assert Opened(ONE_ROW) && !AtMostOneCapture(10, ingests, Total(Run(TEN, ONE_ROW, events)));
    }
  }

  // ----- opening -----

  /** Rows after enforcement: some unpinned ones are gone. */
  ghost predicate Pruned(before: seq<Row>, after: seq<Row>) {
    |after| == |before| && forall k :: 0 <= k < |before| ==>
      after[k] == before[k] || (after[k] == Deleted(before[k]) && !Pinned(before[k]))
  }

  /** Every unpinned row older than a surviving unpinned one is gone: oldest first. */
  ghost predicate OldestFirst(before: seq<Row>, after: seq<Row>)
    requires |after| == |before|
  {
    forall j, k :: 0 <= j < k < |before| && after[k] != before[k] && before[j].present && !Pinned(before[j]) ==>
      !after[j].present
  }

  /** Nothing went that did not have to: with the last row to go still there, the table was over. */
  ghost predicate NoneTooMany(before: seq<Row>, after: seq<Row>, quota: nat)
    requires |after| == |before|
  {
    forall m ::
      0 <= m < |before| && after[m] != before[m] && (forall j :: m < j < |before| ==> after[j] == before[j]) ==>
      Sum(PresentBytes, after[m := before[m]]) > quota
  }

  lemma LastToGo(before: seq<Row>, rows: seq<Row>, k: nat, quota: nat)
    requires k < |rows| == |before| && (forall j :: k <= j < |rows| ==> rows[j] == before[j])
    requires rows[k].present && Sum(PresentBytes, rows) > quota
    ensures NoneTooMany(before, rows[k := Deleted(rows[k])], quota)
  {
    var after := rows[k := Deleted(rows[k])];
    forall m | 0 <= m < |before| && after[m] != before[m] && forall j :: m < j < |before| ==> after[j] == before[j]
      ensures Sum(PresentBytes, after[m := before[m]]) > quota
    {
      assert rows[k] == before[k];
      if m == k { assert after[m := before[m]] == rows; }
    }
  }

  class CaptureLibrary {
    const maxBytes: Quota
    var rows: seq<Row>
    var ingests: seq<Ingest>
    var closed: bool

    ghost function Now(): State
      reads this
    {
      State(rows, ingests, closed)
    }

    /** Opens over the rows found on disk and enforces the quota once. */
    constructor (maxBytes: Quota, found: seq<Row>)
      requires forall k :: 0 <= k < |found| ==> found[k].kept
      ensures this.maxBytes == maxBytes && Opened(Now())
      ensures Pruned(found, rows) && OldestFirst(found, rows)
      ensures maxBytes.Some? ==>
        Total(Now()) <= maxBytes.value || forall k :: 0 <= k < |rows| && rows[k].present ==> Pinned(rows[k])
      ensures maxBytes.Some? ==> NoneTooMany(found, rows, maxBytes.value)
      ensures maxBytes.None? ==> rows == found
    {
      this.maxBytes := maxBytes;
      rows, ingests, closed := found, [], false;
      new;
      EnforceQuotaOnOpen();
    }

    method TotalBytes() returns (total: nat)
      ensures total == Total(Now())
    {
      total := 0;
      for k := 0 to |rows|
        invariant total == Sum(PresentBytes, rows[..k])
      {
        assert rows[..k + 1][..k] == rows[..k];
        total := total + PresentBytes(rows[k]);
      }
      assert rows[..|rows|] == rows;
    }

    method EnforceQuotaOnOpen()
      modifies this`rows
      ensures Pruned(old(rows), rows) && OldestFirst(old(rows), rows)
      ensures forall k :: 0 <= k < |rows| ==> rows[k].kept == old(rows)[k].kept
      ensures maxBytes.None? ==> rows == old(rows)
      ensures maxBytes.Some? ==>
        Total(Now()) <= maxBytes.value || forall k :: 0 <= k < |rows| && rows[k].present ==> Pinned(rows[k])
      ensures maxBytes.Some? ==> NoneTooMany(old(rows), rows, maxBytes.value)
    {
      if maxBytes.None? {
        return;
      }
      for k := 0 to |rows|
        invariant Pruned(old(rows), rows)
        invariant forall j :: 0 <= j < k && rows[j].present ==> Pinned(rows[j])
        invariant forall j :: k <= j < |rows| ==> rows[j] == old(rows)[j]
        invariant NoneTooMany(old(rows), rows, maxBytes.value)
      {
        var total := TotalBytes();
        if total <= maxBytes.value {
          return;
        }
        if rows[k].present && !Pinned(rows[k]) {
          LastToGo(old(rows), rows, k, maxBytes.value);
          rows := rows[k := Deleted(rows[k])];
        }
      }
    }

    /** The unpinned rows, oldest first, never `exclude`. */
    method EvictionCandidates(exclude: int) returns (candidates: seq<nat>)
      ensures candidates == CandidatesFrom(rows, exclude, 0)
    {
      candidates := [];
      var k: nat := |rows|;
      while k > 0
        invariant k <= |rows| && candidates == CandidatesFrom(rows, exclude, k)
      {
        k := k - 1;
        if rows[k].present && !Pinned(rows[k]) && k != exclude {
          candidates := [k] + candidates;
        }
      }
    }

    /** Bytes held by corrected or promoted captures. */
    method CuratedBytes() returns (total: nat)
      ensures total == Sum(PinnedBytes, rows)
    {
      total := 0;
      for k := 0 to |rows|
        invariant total == Sum(PinnedBytes, rows[..k])
      {
        assert rows[..k + 1][..k] == rows[..k];
        total := total + PinnedBytes(rows[k]);
      }
      assert rows[..|rows|] == rows;
    }

    /** Quota admission, at the start of the exclusive part of `ingest`. */
    method Admit(i: nat, ghost bound: nat) returns (admitted: bool)
      requires InPhase(Now(), i, Asked) && Inv(maxBytes, bound, Now())
      modifies this`ingests
      ensures Now() == Step(maxBytes, old(Now()), AdmitIngest(i)) && Inv(maxBytes, bound, Now())
      ensures admitted == InPhase(Now(), i, Storing)
    {
      var curated := CuratedBytes();
      if maxBytes.Some? && curated + ingests[i].bytes > maxBytes.value {
        ingests := ingests[i := ingests[i].(phase := Refused)];
        return false;
      }
      ingests := ingests[i := ingests[i].(phase := Storing)];
      admitted := true;
    }

    /** The insert, at the end of the exclusive part of `ingest`. */
    method InsertRow(i: nat, ghost bound: nat)
      requires InPhase(Now(), i, Storing) && Inv(maxBytes, bound, Now())
      modifies this
      ensures Now() == Step(maxBytes, old(Now()), Stored(i, true)) && Inv(maxBytes, bound, Now())
    {
      StepKeeps(maxBytes, bound, Now(), Stored(i, true));
      ingests := ingests[i := Ingest(ingests[i].bytes, |rows|, Inserted)];
      rows := rows + [Row(ingests[i].bytes, true, false, false, false)];
    }

    /** The head of `evictUntilUnderQuota`, once the insert has been awaited. */
    method ReadCandidates(i: nat, ghost bound: nat)
      requires InPhase(Now(), i, Inserted) && Inv(maxBytes, bound, Now())
      modifies this`ingests
      ensures Now() == Step(maxBytes, old(Now()), PickVictims(i)) && Inv(maxBytes, bound, Now())
    {
      var candidates := EvictionCandidates(ingests[i].row);
      ingests := ingests[i := ingests[i].(phase := Evicting(candidates))];
    }

    method NextVictim(i: nat, ghost bound: nat)
      requires i < |ingests| && ingests[i].phase.Evicting? && Inv(maxBytes, bound, Now())
      modifies this`ingests
      ensures Now() == Step(maxBytes, old(Now()), EvictTurn(i)) && Inv(maxBytes, bound, Now())
    {
      var rest := ingests[i].phase.rest;
      var total := TotalBytes();
      if rest == [] || closed || maxBytes.None? || total <= maxBytes.value {
        ingests := ingests[i := ingests[i].(phase := Checking)];
        return;
      }
      ingests := ingests[i := ingests[i].(phase := Removing(rest[0], rest[1..]))];
    }

    /** An eviction under the victim's lock: a capture pinned meanwhile is left alone. */
    method EvictVictim(i: nat, ghost bound: nat)
      requires i < |ingests| && ingests[i].phase.Removing? && Inv(maxBytes, bound, Now())
      modifies this
      ensures Now() == Step(maxBytes, old(Now()), EvictRow(i)) && Inv(maxBytes, bound, Now())
    {
      StepKeeps(maxBytes, bound, Now(), EvictRow(i));
      var victim, rest := ingests[i].phase.victim, ingests[i].phase.rest;
      ingests := ingests[i := ingests[i].(phase := Evicting(rest))];
      if victim >= |rows| || !rows[victim].present || Pinned(rows[victim]) {
        return;
      }
      rows := rows[victim := Deleted(rows[victim])];
    }

    /** The end of `ingest`; true when it returns its record. */
    method FinishIngest(i: nat, ghost bound: nat) returns (returned: bool)
      requires InPhase(Now(), i, Checking) && Inv(maxBytes, bound, Now())
      modifies this
      ensures Now() == Step(maxBytes, old(Now()), Check(i)) && Inv(maxBytes, bound, Now())
      ensures returned && !closed && maxBytes.Some? ==> Total(Now()) <= maxBytes.value
    {
      StepKeeps(maxBytes, bound, Now(), Check(i));
      var total := TotalBytes();
      if maxBytes.Some? && !closed && total > maxBytes.value {
        ingests := ingests[i := ingests[i].(phase := RollingBack)];
        return false;
      }
      if maxBytes.Some? && !closed { ReturnMeansWithinQuota(maxBytes, Now(), i); }
      var k := ingests[i].row;
      ingests := ingests[i := ingests[i].(phase := if closed then Left else Returned)];
      if !closed && k < |rows| {
        rows := rows[k := rows[k].(kept := true)];
      }
      returned := true;
    }

    /** The capture that no longer fits is removed again. */
    method RollBackIngest(i: nat, ghost bound: nat)
      requires InPhase(Now(), i, RollingBack) && Inv(maxBytes, bound, Now())
      modifies this
      ensures Now() == Step(maxBytes, old(Now()), RollBack(i)) && Inv(maxBytes, bound, Now())
    {
      StepKeeps(maxBytes, bound, Now(), RollBack(i));
      var k := ingests[i].row;
      ingests := ingests[i := ingests[i].(phase := Refused)];
      if k < |rows| && rows[k].present {
        rows := rows[k := Deleted(rows[k])];
      }
    }
  }
}
