/** What the capture library deletes and refuses by itself
    (apps/realtime-gateway/src/library.ts:166-315): only what it has to, oldest first. */
module CaptureEviction {
  import opened Prelude
  import opened CaptureQuota

  // ----- why a row went -----

  /** Ingest `i` takes `victim` from the head of its list, in an open library over its quota. */
  ghost predicate Picks(q: Quota, s: State, e: Event, i: nat, victim: nat, rest: seq<nat>) {
    && e == EvictTurn(i) && !s.closed && q.Some? && Total(s) > q.value
    && InPhase(s, i, Evicting([victim] + rest))
  }

  /** At `m` that happens to `victim` in the run. */
  ghost predicate PickedAt(q: Quota, initial: State, events: seq<Event>, m: nat, i: nat, victim: nat, rest: seq<nat>) {
    m < |events| && Picks(q, At(q, initial, events, m), events[m], i, victim, rest)
  }

  /** Only its own turn sends an ingest after a victim. */
  lemma OnlyATurnPicks(q: Quota, s: State, t: State, e: Event, i: nat, victim: nat, rest: seq<nat>)
    requires t == Step(q, s, e) && InPhase(t, i, Removing(victim, rest))
    ensures InPhase(s, i, Removing(victim, rest)) || Picks(q, s, e, i, victim, rest)
  {
    if !InPhase(s, i, Removing(victim, rest)) {
      var before := s.ingests[i].phase;
      assert before.Evicting?;
      assert before.rest == [before.rest[0]] + before.rest[1..];
    }
  }

  lemma {:induction false} RemovingWasPicked(q: Quota, initial: State, events: seq<Event>, n: nat, i: nat, victim: nat,
                                             rest: seq<nat>)
    returns (m: nat)
    requires Opened(initial) && n <= |events| && InPhase(At(q, initial, events, n), i, Removing(victim, rest))
    ensures m < n && PickedAt(q, initial, events, m, i, victim, rest)
    decreases n
  {
    m := n - 1;
    NextAt(q, initial, events, m);
    var before := At(q, initial, events, m);
    OnlyATurnPicks(q, before, At(q, initial, events, n), events[m], i, victim, rest);
    if InPhase(before, i, Removing(victim, rest)) {
      m := RemovingWasPicked(q, initial, events, m, i, victim, rest);
    }
  }

  /** A row goes by an eviction only if that ingest picked it, at the head of its list, at a moment
      when the library was open and the table over its quota. */
  lemma EvictedWasPicked(q: Quota, initial: State, events: seq<Event>, n: nat, k: nat) returns (m: nat, rest: seq<nat>)
    requires Opened(initial) && n < |events| && events[n].EvictRow?
    requires IsPresent(At(q, initial, events, n), k) && !IsPresent(At(q, initial, events, n + 1), k)
    ensures m < n && PickedAt(q, initial, events, m, events[n].i, k, rest)
  {
    var s := At(q, initial, events, n);
    NextAt(q, initial, events, n);
    rest := s.ingests[events[n].i].phase.rest;
    m := RemovingWasPicked(q, initial, events, n, events[n].i, k, rest);
  }

  // ----- nothing goes without need -----

  /** Which segments can take a row away. */
  predicate Takes(s: State, e: Event, k: nat) {
    || e == Remove(k)
    || RollsBack(s, e, k)
    || (e.EvictRow? && e.i < |s.ingests| && s.ingests[e.i].phase.Removing? && s.ingests[e.i].phase.victim == k)
  }

  lemma OnlyTakingTakes(q: Quota, s: State, e: Event, k: nat)
    requires IsPresent(s, k) && !IsPresent(Step(q, s, e), k)
    ensures Takes(s, e, k)
  {
  }

  ghost predicate NeverOver(q: Quota, initial: State, events: seq<Event>) {
    forall n {:trigger At(q, initial, events, n)} :: 0 <= n <= |events| ==> !OverQuota(q, At(q, initial, events, n))
  }

  /** An ingest rolls back only because its last look found an open library over its quota. */
  lemma OnlyACheckRollsBack(q: Quota, s: State, t: State, e: Event, i: nat)
    requires t == Step(q, s, e) && InPhase(t, i, RollingBack)
    ensures InPhase(s, i, RollingBack) || (e == Check(i) && !s.closed && q.Some? && Total(s) > q.value)
  {
  }

  lemma {:induction false} NobodyRollsBack(q: Quota, initial: State, events: seq<Event>, n: nat, i: nat)
    requires Opened(initial) && n <= |events| && NeverOver(q, initial, events)
    ensures !InPhase(At(q, initial, events, n), i, RollingBack)
    decreases n
  {
    if n > 0 && InPhase(At(q, initial, events, n), i, RollingBack) {
      NobodyRollsBack(q, initial, events, n - 1, i);
      NextAt(q, initial, events, n - 1);
      OnlyACheckRollsBack(q, At(q, initial, events, n - 1), At(q, initial, events, n), events[n - 1], i);
    }
  }

  /** While the table keeps within its quota, or there is none, a capture stays until a person
      removes it: nothing is evicted and nothing is rolled back. */
  lemma {:induction false} WithinQuotaNothingGoes(q: Quota, initial: State, events: seq<Event>, k: nat, i: nat, j: nat)
    requires Opened(initial) && NeverOver(q, initial, events)
    requires i <= j <= |events| && IsPresent(At(q, initial, events, i), k)
    requires forall n :: i <= n < j ==> events[n] != Remove(k)
    ensures IsPresent(At(q, initial, events, j), k)
    decreases j - i
  {
    if i < j {
      WithinQuotaNothingGoes(q, initial, events, k, i, j - 1);
      StaysOneMore(q, initial, events, k, j - 1);
    }
  }

  lemma StaysOneMore(q: Quota, initial: State, events: seq<Event>, k: nat, n: nat)
    requires Opened(initial) && NeverOver(q, initial, events)
    requires n < |events| && IsPresent(At(q, initial, events, n), k) && events[n] != Remove(k)
    ensures IsPresent(At(q, initial, events, n + 1), k)
  {
    var s, e := At(q, initial, events, n), events[n];
    NextAt(q, initial, events, n);
    if !IsPresent(Step(q, s, e), k) {
      OnlyTakingTakes(q, s, e, k);
      if e.EvictRow? {
        var _, _ := EvictedWasPicked(q, initial, events, n, k);
      } else {
        NobodyRollsBack(q, initial, events, n, e.i);
      }
    }
  }

  /** What makes a capture curated is only ever a person's doing: a correction, or its withdrawal, and a
      promotion of that capture. */
  lemma OnlyPeopleCurate(q: Quota, s: State, e: Event, k: nat)
    requires IsPresent(s, k)
    ensures var t := Step(q, s, e);
      && |t.rows| >= |s.rows|
      && t.rows[k].corrected == (if e.Correct? && e.k == k then e.corrected else s.rows[k].corrected)
      && t.rows[k].promoted == (s.rows[k].promoted || e == Promote(k))
      && t.rows[k].bytes == s.rows[k].bytes
  {
  }

  // ----- what the list holds -----

  /** The candidates are the uncurated rows but the new one, oldest first. */
  lemma {:induction false} CandidatesAre(rows: seq<Row>, exclude: int, k: nat)
    requires k <= |rows|
    ensures var list := CandidatesFrom(rows, exclude, k);
      && (forall j: nat :: j in list <==>
            k <= j < |rows| && rows[j].present && !rows[j].corrected && !rows[j].promoted && j != exclude)
      && (forall a, b :: 0 <= a < b < |list| ==> list[a] < list[b])
    decreases |rows| - k
  {
    if k < |rows| {
      CandidatesAre(rows, exclude, k + 1);
      var rest := CandidatesFrom(rows, exclude, k + 1);
      forall b | 0 <= b < |rest| ensures k < rest[b] { assert rest[b] in rest; }
    }
  }

  // ----- an ingest left to itself -----

  /** Events of ingest `i` alone, its storage succeeding. */
  predicate IsOf(e: Event, i: nat) {
    || e == AdmitIngest(i) || e == Stored(i, true) || e == PickVictims(i) || e == EvictTurn(i) || e == EvictRow(i)
    || e == Check(i) || e == RollBack(i)
  }

  ghost predicate AllOf(events: seq<Event>, i: nat) {
    forall k :: 0 <= k < |events| ==> IsOf(events[k], i)
  }

  lemma {:induction false} RunOn(q: Quota, s: State, a: seq<Event>, b: seq<Event>)
    ensures Run(q, s, a + b) == Run(q, Run(q, s, a), b)
    decreases |b|
  {
    if b == [] {
      assert a + b == a;
    } else {
      var n := |b| - 1;
      RunOn(q, s, a, b[..n]);
      assert a + b == (a + b[..n]) + [b[n]] && b == b[..n] + [b[n]];
      RunMore(q, s, a + b[..n], b[n]);
      RunMore(q, Run(q, s, a), b[..n], b[n]);
    }
  }

  /** The table once the victims are gone. */
  function Without(rows: seq<Row>, victims: seq<nat>): (r: seq<Row>)
    ensures |r| == |rows|
    decreases |victims|
  {
    if victims == [] then rows
    else
      var rest := if victims[0] < |rows| then rows[victims[0] := Deleted(rows[victims[0]])] else rows;
      Without(rest, victims[1..])
  }

  predicate FitsWithout(quota: nat, rows: seq<Row>, victims: seq<nat>) {
    Sum(PresentBytes, Without(rows, victims)) <= quota
  }

  /** Rows go one after the other until the rest fits, and no more. */
  ghost predicate LeastEviction(quota: nat, rows: seq<Row>, list: seq<nat>, m: nat) {
    && m <= |list|
    && (m < |list| ==> FitsWithout(quota, rows, list[..m]))
    && (m > 0 ==> !FitsWithout(quota, rows, list[..m - 1]))
  }

  lemma WithoutOneMore(rows: seq<Row>, rest: seq<Row>, list: seq<nat>, m: nat)
    requires list != [] && m < |list| && list[0] < |rows| && rest == rows[list[0] := Deleted(rows[list[0]])]
    ensures Without(rest, list[1..][..m]) == Without(rows, list[..m + 1])
  {
    assert list[..m + 1][1..] == list[1..][..m];
  }

  lemma FitsOneMore(quota: nat, rows: seq<Row>, rest: seq<Row>, list: seq<nat>, m: nat)
    requires list != [] && m < |list| && list[0] < |rows| && rest == rows[list[0] := Deleted(rows[list[0]])]
    ensures FitsWithout(quota, rest, list[1..][..m]) <==> FitsWithout(quota, rows, list[..m + 1])
  {
    WithoutOneMore(rows, rest, list, m);
  }

  lemma NoneFits(quota: nat, rows: seq<Row>)
    ensures FitsWithout(quota, rows, []) <==> Sum(PresentBytes, rows) <= quota
  {
  }

  lemma OneMoreIsLeast(quota: nat, rows: seq<Row>, rest: seq<Row>, list: seq<nat>, m: nat)
    requires list != [] && list[0] < |rows| && rest == rows[list[0] := Deleted(rows[list[0]])]
    requires Sum(PresentBytes, rows) > quota && LeastEviction(quota, rest, list[1..], m)
    ensures LeastEviction(quota, rows, list, m + 1)
  {
    hide FitsWithout;
    FitsOneMore(quota, rows, rest, list, m);
    if m > 0 {
      FitsOneMore(quota, rows, rest, list, m - 1);
    } else {
      NoneFits(quota, rows);
      assert list[..0] == [];
    }
  }

  /** The victims that are left are uncurated rows that are there. */
  ghost predicate Evictable(rows: seq<Row>, list: seq<nat>) {
    && (forall a :: 0 <= a < |list| ==> list[a] < |rows| && rows[list[a]].present && !Pinned(rows[list[a]]))
    && (forall a, b :: 0 <= a < b < |list| ==> list[a] < list[b])
  }

  lemma RestIsEvictable(rows: seq<Row>, rest: seq<Row>, list: seq<nat>)
    requires Evictable(rows, list) && list != [] && rest == rows[list[0] := Deleted(rows[list[0]])]
    ensures Evictable(rest, list[1..])
  {
    forall a | 0 <= a < |list[1..]| ensures list[1..][a] < |rest| && rest[list[1..][a]] == rows[list[a + 1]] {
      assert list[0] < list[a + 1];
    }
  }

  /** Ingest `i` at `phase`, over `rows`. */
  function With(s: State, i: nat, rows: seq<Row>, phase: Phase): State
    requires i < |s.ingests|
  {
    s.(rows := rows, ingests := s.ingests[i := s.ingests[i].(phase := phase)])
  }

  lemma WithTwice(s: State, i: nat, rows: seq<Row>, phase: Phase, rows': seq<Row>, phase': Phase)
    requires i < |s.ingests|
    ensures With(With(s, i, rows, phase), i, rows', phase') == With(s, i, rows', phase')
  {
  }

  /** The library is open and over its quota: the first of the list goes. */
  lemma EvictOne(q: Quota, s: State, i: nat, list: seq<nat>)
    requires InPhase(s, i, Evicting(list)) && list != [] && !s.closed && OverQuota(q, s) && Evictable(s.rows, list)
    ensures var rest := s.rows[list[0] := Deleted(s.rows[list[0]])];
      Run(q, s, [EvictTurn(i), EvictRow(i)]) == With(s, i, rest, Evicting(list[1..]))
  {
    var u := With(s, i, s.rows, Removing(list[0], list[1..]));
    assert Step(q, s, EvictTurn(i)) == u;
    RunMore(q, s, [], EvictTurn(i));
    RunMore(q, s, [EvictTurn(i)], EvictRow(i));
    assert [EvictTurn(i)] + [EvictRow(i)] == [EvictTurn(i), EvictRow(i)] && [] + [EvictTurn(i)] == [EvictTurn(i)];
    var rest := s.rows[list[0] := Deleted(s.rows[list[0]])];
    assert Step(q, u, EvictRow(i)) == With(u, i, rest, Evicting(list[1..]));
    WithTwice(s, i, s.rows, Removing(list[0], list[1..]), rest, Evicting(list[1..]));
  }

  lemma StopEvicting(q: Quota, s: State, i: nat, list: seq<nat>)
    requires InPhase(s, i, Evicting(list)) && (list == [] || !OverQuota(q, s))
    ensures Run(q, s, [EvictTurn(i)]) == With(s, i, s.rows, Checking)
  {
    RunMore(q, s, [], EvictTurn(i));
    assert [] + [EvictTurn(i)] == [EvictTurn(i)];
  }

  lemma {:induction false} EvictAlone(q: Quota, s: State, i: nat, list: seq<nat>)
    returns (more: seq<Event>, m: nat)
    requires InPhase(s, i, Evicting(list)) && !s.closed && q.Some? && Evictable(s.rows, list)
    ensures LeastEviction(q.value, s.rows, list, m) && AllOf(more, i)
    ensures Run(q, s, more) == With(s, i, Without(s.rows, list[..m]), Checking)
    decreases |list|
  {
    if list == [] || !OverQuota(q, s) {
      more, m := [EvictTurn(i)], 0;
      StopEvicting(q, s, i, list);
      assert list[..0] == [];
    } else {
      var rest := s.rows[list[0] := Deleted(s.rows[list[0]])];
      var t := With(s, i, rest, Evicting(list[1..]));
      EvictOne(q, s, i, list);
      RestIsEvictable(s.rows, rest, list);
      var more', m' := EvictAlone(q, t, i, list[1..]);
      more, m := [EvictTurn(i), EvictRow(i)] + more', m' + 1;
      RunOn(q, s, [EvictTurn(i), EvictRow(i)], more');
      OneMoreIsLeast(q.value, s.rows, rest, list, m');
      WithoutOneMore(s.rows, rest, list, m');
      WithTwice(s, i, rest, Evicting(list[1..]), Without(s.rows, list[..m]), Checking);
    }
  }

  // ----- admission -----

  /** What cannot be evicted stays in every table that evictions leave. */
  lemma {:induction false} CuratedRemains(rows: seq<Row>, after: seq<Row>)
    requires Pruned(rows, after)
    ensures Sum(PinnedBytes, rows) <= Sum(PresentBytes, after)
    decreases |rows|
  {
    if rows != [] {
      var n := |rows| - 1;
      assert after[n] == rows[n] || (after[n] == Deleted(rows[n]) && !Pinned(rows[n]));
      CuratedRemains(rows[..n], after[..n]);
    }
  }

  function Spare(r: Row): Row {
    if Pinned(r) then r else Deleted(r)
  }

  function CuratedOnly(rows: seq<Row>): (r: seq<Row>)
    ensures |r| == |rows| && forall k :: 0 <= k < |rows| ==> r[k] == Spare(rows[k])
  {
    if rows == [] then [] else CuratedOnly(rows[..|rows| - 1]) + [Spare(rows[|rows| - 1])]
  }

  /** With everything else gone, the curated captures are what there is. */
  lemma {:induction false} CuratedIsAll(rows: seq<Row>, after: seq<Row>)
    requires |after| == |rows| && forall k :: 0 <= k < |rows| ==> PresentBytes(after[k]) == PinnedBytes(rows[k])
    ensures Sum(PresentBytes, after) == Sum(PinnedBytes, rows)
    decreases |rows|
  {
    if rows != [] { CuratedIsAll(rows[..|rows| - 1], after[..|after| - 1]); }
  }

  /** No choice of evictions makes room for `bytes` more. */
  ghost predicate NoRoom(q: Quota, rows: seq<Row>, bytes: nat) {
    q.Some? && forall after {:trigger Pruned(rows, after)} :: Pruned(rows, after) ==>
      Sum(PresentBytes, after) + bytes > q.value
  }

  lemma NoRoomIff(q: Quota, rows: seq<Row>, bytes: nat)
    ensures NoRoom(q, rows, bytes) <==> q.Some? && Sum(PinnedBytes, rows) + bytes > q.value
  {
    forall after | Pruned(rows, after) ensures Sum(PinnedBytes, rows) <= Sum(PresentBytes, after) {
      CuratedRemains(rows, after);
    }
    var after := CuratedOnly(rows);
    assert Pruned(rows, after);
    CuratedIsAll(rows, after);
  }

  /** An ingest is refused at admission if and only if no choice of evictions would make room. */
  lemma RefusedWithoutRoomIff(q: Quota, s: State, i: nat)
    requires InPhase(s, i, Asked)
    ensures InPhase(Step(q, s, AdmitIngest(i)), i, Refused) <==> NoRoom(q, s.rows, s.ingests[i].bytes)
    ensures InPhase(Step(q, s, AdmitIngest(i)), i, Storing) <==> !NoRoom(q, s.rows, s.ingests[i].bytes)
  {
    NoRoomIff(q, s.rows, s.ingests[i].bytes);
  }

  // ----- an ingest left to itself -----

  lemma {:induction false} WithoutAt(rows: seq<Row>, list: seq<nat>, k: nat)
    requires k < |rows|
    ensures Without(rows, list)[k] == if k in list then Deleted(rows[k]) else rows[k]
    decreases |list|
  {
    if list != [] {
      var rest := if list[0] < |rows| then rows[list[0] := Deleted(rows[list[0]])] else rows;
      WithoutAt(rest, list[1..], k);
      assert list == [list[0]] + list[1..];
    }
  }

  /** The row of a capture just stored. */
  function NewRow(bytes: nat): Row {
    Row(bytes, true, false, false, false)
  }

  lemma CandidatesGoneButNew(rows: seq<Row>, all: seq<Row>, bytes: nat, list: seq<nat>, k: nat)
    requires all == rows + [NewRow(bytes)] && list == CandidatesFrom(all, |rows|, 0) && k <= |rows|
    ensures k < |rows| ==> PresentBytes(Without(all, list)[k]) == PinnedBytes(rows[k])
    ensures k == |rows| ==> Without(all, list)[k] == NewRow(bytes)
  {
    CandidatesAre(all, |rows|, 0);
    WithoutAt(all, list, k);
  }

  /** With all candidates gone, the curated captures and the new one are what there is. */
  lemma AllCandidatesGone(rows: seq<Row>, all: seq<Row>, bytes: nat, list: seq<nat>)
    requires all == rows + [NewRow(bytes)] && list == CandidatesFrom(all, |rows|, 0)
    ensures Sum(PresentBytes, Without(all, list)) == Sum(PinnedBytes, rows) + bytes
  {
    var after, n := Without(all, list), |rows|;
    forall k | 0 <= k < n ensures PresentBytes(after[..n][k]) == PinnedBytes(rows[k]) {
      CandidatesGoneButNew(rows, all, bytes, list, k);
    }
    CandidatesGoneButNew(rows, all, bytes, list, n);
    CuratedIsAll(rows, after[..n]);
    assert after == after[..n] + [NewRow(bytes)];
    SumAppend(PresentBytes, after[..n], NewRow(bytes));
  }

  lemma RunOfThree(q: Quota, s: State, a: Event, b: Event, c: Event)
    ensures Run(q, s, [a, b, c]) == Step(q, Step(q, Step(q, s, a), b), c)
  {
    RunMore(q, s, [], a);
    RunMore(q, s, [a], b);
    RunMore(q, s, [a, b], c);
    assert [] + [a] == [a] && [a] + [b] == [a, b] && [a, b] + [c] == [a, b, c];
  }

  /** The library with one more ingest at `phase`. */
  function Asking(s: State, rows: seq<Row>, bytes: nat, row: nat, phase: Phase): State {
    s.(rows := rows, ingests := s.ingests + [Ingest(bytes, row, phase)])
  }

  lemma Admitting(q: Quota, s: State, bytes: nat)
    requires !NoRoom(q, s.rows, bytes)
    ensures Step(q, Asking(s, s.rows, bytes, 0, Asked), AdmitIngest(|s.ingests|))
         == Asking(s, s.rows, bytes, 0, Storing)
  {
    RefusedWithoutRoomIff(q, Asking(s, s.rows, bytes, 0, Asked), |s.ingests|);
  }

  lemma StoringIt(q: Quota, s: State, bytes: nat)
    ensures Step(q, Asking(s, s.rows, bytes, 0, Storing), Stored(|s.ingests|, true))
         == Asking(s, s.rows + [NewRow(bytes)], bytes, |s.rows|, Inserted)
  {
  }

  lemma Picking(q: Quota, s: State, rows: seq<Row>, bytes: nat, row: nat)
    ensures Step(q, Asking(s, rows, bytes, row, Inserted), PickVictims(|s.ingests|))
         == Asking(s, rows, bytes, row, Evicting(CandidatesFrom(rows, row, 0)))
  {
  }

  /** From the request to the list of candidates. */
  lemma ReachesEvicting(q: Quota, s: State, bytes: nat, all: seq<Row>, list: seq<nat>)
    requires !s.closed && !NoRoom(q, s.rows, bytes)
    requires all == s.rows + [NewRow(bytes)] && list == CandidatesFrom(all, |s.rows|, 0)
    ensures var i := |s.ingests|;
      Run(q, Step(q, s, Ask(bytes)), [AdmitIngest(i), Stored(i, true), PickVictims(i)])
      == Asking(s, all, bytes, |s.rows|, Evicting(list))
  {
    var i := |s.ingests|;
    RunOfThree(q, Step(q, s, Ask(bytes)), AdmitIngest(i), Stored(i, true), PickVictims(i));
    Admitting(q, s, bytes);
    StoringIt(q, s, bytes);
    Picking(q, s, all, bytes, |s.rows|);
  }

  /** The table an undisturbed ingest leaves: the first `m` candidates gone, the new capture kept. */
  function Retained(rows: seq<Row>, bytes: nat, m: nat): seq<Row>
    requires m <= |CandidatesFrom(rows + [NewRow(bytes)], |rows|, 0)|
  {
    var all := rows + [NewRow(bytes)];
    Without(all, CandidatesFrom(all, |rows|, 0)[..m])[|rows| := NewRow(bytes).(kept := true)]
  }

  /** As few of the oldest uncurated captures go as make room. */
  ghost predicate IsLeast(quota: nat, rows: seq<Row>, bytes: nat, m: nat) {
    var all := rows + [NewRow(bytes)];
    var list := CandidatesFrom(all, |rows|, 0);
    m <= |list| && FitsWithout(quota, all, list[..m]) && (m > 0 ==> !FitsWithout(quota, all, list[..m - 1]))
  }

  /** Where there is room, the least eviction makes it. */
  lemma LeastMakesRoom(quota: nat, rows: seq<Row>, bytes: nat, m: nat)
    requires !NoRoom(Some(quota), rows, bytes)
    requires LeastEviction(quota, rows + [NewRow(bytes)], CandidatesFrom(rows + [NewRow(bytes)], |rows|, 0), m)
    ensures IsLeast(quota, rows, bytes, m)
  {
    var all := rows + [NewRow(bytes)];
    var list := CandidatesFrom(all, |rows|, 0);
    if m == |list| {
      assert list[..m] == list;
      AllCandidatesGone(rows, all, bytes, list);
      NoRoomIff(Some(quota), rows, bytes);
    }
  }

  lemma NewRowStays(rows: seq<Row>, bytes: nat, m: nat)
    requires m <= |CandidatesFrom(rows + [NewRow(bytes)], |rows|, 0)|
    ensures var all := rows + [NewRow(bytes)];
      Without(all, CandidatesFrom(all, |rows|, 0)[..m])[|rows|] == NewRow(bytes)
  {
    var all := rows + [NewRow(bytes)];
    CandidatesAre(all, |rows|, 0);
    WithoutAt(all, CandidatesFrom(all, |rows|, 0)[..m], |rows|);
  }

  lemma EvictableCandidates(rows: seq<Row>, exclude: nat)
    ensures Evictable(rows, CandidatesFrom(rows, exclude, 0))
  {
    CandidatesAre(rows, exclude, 0);
    var list := CandidatesFrom(rows, exclude, 0);
    forall a | 0 <= a < |list| ensures list[a] < |rows| && rows[list[a]].present && !Pinned(rows[list[a]]) {
      assert list[a] in list;
    }
  }

  lemma Returning(q: Quota, s: State, rows: seq<Row>, bytes: nat, row: nat)
    requires !s.closed && row < |rows| && (q.Some? ==> Sum(PresentBytes, rows) <= q.value)
    ensures Run(q, Asking(s, rows, bytes, row, Checking), [Check(|s.ingests|)])
         == Asking(s, rows[row := rows[row].(kept := true)], bytes, row, Returned)
  {
    var i, last := |s.ingests|, Asking(s, rows, bytes, row, Checking);
    RunMore(q, last, [], Check(i));
    assert [] + [Check(i)] == [Check(i)];
    FitsAndReturns(q, last, i);
    assert last.ingests[i := Ingest(bytes, row, Returned)] == s.ingests + [Ingest(bytes, row, Returned)];
  }

  lemma FitsAndReturns(q: Quota, s: State, i: nat)
    requires InPhase(s, i, Checking) && !s.closed && !OverQuota(q, s) && s.ingests[i].row < |s.rows|
    ensures var k := s.ingests[i].row;
      Step(q, s, Check(i)) == With(s, i, s.rows[k := s.rows[k].(kept := true)], Returned)
  {
  }

  /** The eviction and the last look. */
  lemma EvictAndReturn(q: Quota, s: State, all: seq<Row>, bytes: nat, list: seq<nat>)
    returns (events: seq<Event>, m: nat)
    requires q.Some? && !s.closed && !NoRoom(q, s.rows, bytes)
    requires all == s.rows + [NewRow(bytes)] && list == CandidatesFrom(all, |s.rows|, 0)
    ensures AllOf(events, |s.ingests|) && IsLeast(q.value, s.rows, bytes, m)
    ensures Run(q, Asking(s, all, bytes, |s.rows|, Evicting(list)), events)
         == Asking(s, Retained(s.rows, bytes, m), bytes, |s.rows|, Returned)
  {
    var i, n := |s.ingests|, |s.rows|;
    var start := Asking(s, all, bytes, n, Evicting(list));
    EvictableCandidates(all, n);
    events, m := EvictAlone(q, start, i, list);
    LeastMakesRoom(q.value, s.rows, bytes, m);
    NewRowStays(s.rows, bytes, m);
    var rows := Without(all, list[..m]);
    assert With(start, i, rows, Checking) == Asking(s, rows, bytes, n, Checking);
    Returning(q, s, rows, bytes, n);
    RunOn(q, start, events, [Check(i)]);
    events := events + [Check(i)];
  }

  /** An ingest nobody disturbs, in an open library with a quota: refused, with nothing deleted, if no
      choice of evictions makes room; otherwise it returns, and as few of the oldest uncurated
      captures go as make room. */
  lemma UndisturbedIngest(q: Quota, s: State, bytes: nat) returns (events: seq<Event>, m: nat)
    requires q.Some? && !s.closed
    ensures AllOf(events, |s.ingests|)
    ensures var t := Run(q, Step(q, s, Ask(bytes)), events);
      if NoRoom(q, s.rows, bytes) then t == Asking(s, s.rows, bytes, 0, Refused)
      else IsLeast(q.value, s.rows, bytes, m) && t == Asking(s, Retained(s.rows, bytes, m), bytes, |s.rows|, Returned)
  {
    var i, asked := |s.ingests|, Step(q, s, Ask(bytes));
    if NoRoom(q, s.rows, bytes) {
      RefusedWithoutRoomIff(q, asked, i);
      RunMore(q, asked, [], AdmitIngest(i));
      assert [] + [AdmitIngest(i)] == [AdmitIngest(i)];
      events, m := [AdmitIngest(i)], 0;
    } else {
      var all := s.rows + [NewRow(bytes)];
      var list := CandidatesFrom(all, |s.rows|, 0);
      var before := [AdmitIngest(i), Stored(i, true), PickVictims(i)];
      ReachesEvicting(q, s, bytes, all, list);
      var more;
      more, m := EvictAndReturn(q, s, all, bytes, list);
      RunOn(q, asked, before, more);
      events := before + more;
    }
  }
}
