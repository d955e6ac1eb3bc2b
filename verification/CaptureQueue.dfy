/** Per-capture mutation queues (apps/realtime-gateway/src/library.ts, runExclusive and close):
    each capture id has a chain of promises whose tail is remembered until it settles. */
module CaptureQueue {
  import opened Prelude

  type Id = string

  datatype Status = Queued | Running | Settled

  /** One admitted piece of work; its ticket is its position in admission order. `after` is the
      tail it was chained behind, and `swept` says its clean-up ran. */
  datatype Work = Work(id: Id, after: Option<nat>, status: Status, swept: bool)

  /** `awaited` are the tickets `close` waits for. */
  datatype State = State(works: seq<Work>, tails: map<Id, nat>, closed: bool, awaited: set<nat>, databaseClosed: bool)

  const EMPTY := State([], map[], false, {}, false)

  datatype Event = Admit(id: Id) | Start(ticket: nat) | Settle(ticket: nat) | Sweep(ticket: nat) | Close | CloseDatabase

  predicate MayStart(s: State, t: nat) {
    && t < |s.works| && s.works[t].status == Queued
    && (s.works[t].after.Some? ==>
          s.works[t].after.value < |s.works| && s.works[s.works[t].after.value].status == Settled)
  }

  function WithWork(s: State, t: nat, w: Work): State
    requires t < |s.works|
  {
    s.(works := s.works[t := w])
  }

  /** One atomic segment; an event that cannot happen leaves the queues alone. Work settles
      whether it succeeded or failed. */
  function Step(s: State, e: Event): State {
    match e
    case Admit(id) =>
      if s.closed then s
      else
        var after := if id in s.tails then Some(s.tails[id]) else None;
        s.(works := s.works + [Work(id, after, Queued, false)], tails := s.tails[id := |s.works|])
    case Start(t) =>
      if MayStart(s, t) then WithWork(s, t, s.works[t].(status := Running)) else s
    case Settle(t) =>
      if t < |s.works| && s.works[t].status == Running then WithWork(s, t, s.works[t].(status := Settled)) else s
    case Sweep(t) =>
      if t < |s.works| && s.works[t].status == Settled && !s.works[t].swept then
        var u := WithWork(s, t, s.works[t].(swept := true));
        if s.works[t].id in s.tails && s.tails[s.works[t].id] == t then u.(tails := s.tails - {s.works[t].id}) else u
      else s
    case Close =>
      if s.closed then s
      else s.(closed := true, awaited := set t | 0 <= t < |s.works| && !s.works[t].swept)
    case CloseDatabase =>
      if s.closed && forall t :: t in s.awaited ==> t < |s.works| && s.works[t].status == Settled
      then s.(databaseClosed := true) else s
  }

  function Run(events: seq<Event>): State {
    if events == [] then EMPTY else Step(Run(events[..|events| - 1]), events[|events| - 1])
  }

  // ----- the invariant -----

  /** Work is chained behind the work admitted last before it on its id; with no such chain,
      everything earlier on its id had settled. */
  ghost predicate ChainOk(works: seq<Work>, t: nat)
    requires t < |works|
  {
    match works[t].after
    case Some(p) => p < t && works[p].id == works[t].id && forall k :: p < k < t ==> works[k].id != works[t].id
    case None => forall k :: 0 <= k < t && works[k].id == works[t].id ==> works[k].status == Settled
  }

  ghost predicate TailOk(s: State, id: Id) {
    if id in s.tails then
      var t := s.tails[id];
      t < |s.works| && s.works[t].id == id && forall k :: t < k < |s.works| ==> s.works[k].id != id
    else forall k :: 0 <= k < |s.works| && s.works[k].id == id ==> s.works[k].status == Settled
  }

  /** Work that has started has only settled work before it on its id. */
  ghost predicate InOrder(works: seq<Work>) {
    forall j, k :: 0 <= j < k < |works| && works[j].id == works[k].id && works[k].status != Queued ==>
      works[j].status == Settled
  }

  ghost predicate Chained(works: seq<Work>) {
    forall t {:trigger works[t]} :: 0 <= t < |works| ==>
      ChainOk(works, t) && (works[t].swept ==> works[t].status == Settled)
  }

  ghost predicate DrainOk(s: State) {
    && (s.closed ==> forall t :: 0 <= t < |s.works| && t !in s.awaited ==> s.works[t].status == Settled)
    && (s.databaseClosed ==> s.closed && forall t :: 0 <= t < |s.works| ==> s.works[t].status == Settled)
  }

  ghost predicate Inv(s: State) {
    Chained(s.works) && InOrder(s.works) && DrainOk(s) && forall id :: TailOk(s, id)
  }

  lemma AdmitKeeps(s: State, id: Id)
    requires Inv(s)
    ensures Inv(Step(s, Admit(id)))
  {
    if !s.closed {
      var t := Step(s, Admit(id));
      assert TailOk(s, id);
      forall k | 0 <= k < |t.works| ensures ChainOk(t.works, k) && (t.works[k].swept ==> t.works[k].status == Settled) {
        if k < |s.works| { assert ChainOk(s.works, k); }
      }
      forall other ensures TailOk(t, other) {
        assert TailOk(s, other);
      }
    }
  }

  /** What comes before startable work on its id has settled. */
  lemma StartableIsNext(s: State, t: nat, j: nat)
    requires Inv(s) && MayStart(s, t) && j < t && s.works[j].id == s.works[t].id
    ensures s.works[j].status == Settled
  {
    assert ChainOk(s.works, t);
    if s.works[t].after.Some? {
      assert j <= s.works[t].after.value;
    }
  }

  /** One piece of work advances: settled work stays settled, chains stay as they are. */
  ghost predicate Advances(works: seq<Work>, t: nat, w: Work) {
    && t < |works| && w == works[t].(status := w.status, swept := w.swept)
    && (works[t].status == Settled ==> w.status == Settled)
    && (w.swept ==> w.status == Settled)
  }

  lemma AdvanceKeepsChains(works: seq<Work>, t: nat, w: Work)
    requires Chained(works) && Advances(works, t, w)
    ensures Chained(works[t := w])
  {
    var next := works[t := w];
    forall k | 0 <= k < |next| ensures ChainOk(next, k) && (next[k].swept ==> next[k].status == Settled) {
      assert ChainOk(works, k);
    }
  }

  lemma AdvanceKeepsTail(s: State, t: nat, w: Work, id: Id)
    requires Advances(s.works, t, w) && TailOk(s, id)
    ensures TailOk(WithWork(s, t, w), id)
  {
  }

  lemma AdvanceKeepsTails(s: State, t: nat, w: Work)
    requires Advances(s.works, t, w) && forall id :: TailOk(s, id)
    ensures forall id :: TailOk(WithWork(s, t, w), id)
  {
    forall id ensures TailOk(WithWork(s, t, w), id) {
      AdvanceKeepsTail(s, t, w, id);
    }
  }

  lemma StartKeeps(s: State, t: nat)
    requires Inv(s) && MayStart(s, t)
    ensures Inv(Step(s, Start(t)))
  {
    var u := Step(s, Start(t));
    AdvanceKeepsChains(s.works, t, u.works[t]);
    AdvanceKeepsTails(s, t, u.works[t]);
    forall j, k | 0 <= j < k < |u.works| && u.works[j].id == u.works[k].id && u.works[k].status != Queued
      ensures u.works[j].status == Settled
    {
      if k == t { StartableIsNext(s, t, j); }
    }
  }

  lemma SettleKeeps(s: State, t: nat)
    requires Inv(s) && t < |s.works| && s.works[t].status == Running
    ensures Inv(Step(s, Settle(t)))
  {
    var w := s.works[t].(status := Settled);
    AdvanceKeepsChains(s.works, t, w);
    AdvanceKeepsTails(s, t, w);
  }

  /** Forgetting a settled tail is safe: all the work on its id has settled by then. */
  lemma ForgetTail(s: State, id: Id)
    requires InOrder(s.works) && TailOk(s, id) && id in s.tails && s.works[s.tails[id]].status == Settled
    ensures TailOk(s.(tails := s.tails - {id}), id)
  {
    var t := s.tails[id];
    forall k | 0 <= k < |s.works| && s.works[k].id == id ensures s.works[k].status == Settled {
      assert k <= t;
    }
  }

  lemma SweepKeeps(s: State, t: nat)
    requires Inv(s) && t < |s.works| && s.works[t].status == Settled && !s.works[t].swept
    ensures Inv(Step(s, Sweep(t)))
  {
    var w, id := s.works[t].(swept := true), s.works[t].id;
    var u, v := WithWork(s, t, w), Step(s, Sweep(t));
    AdvanceKeepsChains(s.works, t, w);
    AdvanceKeepsTails(s, t, w);
    if id in s.tails && s.tails[id] == t {
      assert TailOk(u, id);
      ForgetTail(u, id);
      forall other ensures TailOk(v, other) {
        assert TailOk(u, other);
      }
    }
  }

  lemma StepKeeps(s: State, e: Event)
    requires Inv(s)
    ensures Inv(Step(s, e))
  {
    match e
    case Admit(id) => AdmitKeeps(s, id);
    case Start(t) => if MayStart(s, t) { StartKeeps(s, t); }
    case Settle(t) => if t < |s.works| && s.works[t].status == Running { SettleKeeps(s, t); }
    case Sweep(t) => if t < |s.works| && s.works[t].status == Settled && !s.works[t].swept { SweepKeeps(s, t); }
    case Close => assert forall id :: TailOk(s, id) ==> TailOk(Step(s, e), id);
    case CloseDatabase => assert forall id :: TailOk(s, id) ==> TailOk(Step(s, e), id);
  }

  lemma {:induction false} RunKeeps(events: seq<Event>)
    ensures Inv(Run(events))
    decreases |events|
  {
    if events != [] {
      RunKeeps(events[..|events| - 1]);
      StepKeeps(Run(events[..|events| - 1]), events[|events| - 1]);
    }
  }

  /** Work on one capture never overlaps and runs in admission order: when a piece of work is
      running or has run, everything admitted before it on that capture has settled. */
  lemma MutationsAreSerialized(events: seq<Event>, j: nat, k: nat)
    requires var s := Run(events); j < k < |s.works| && s.works[j].id == s.works[k].id
    ensures var s := Run(events);
      && (s.works[k].status != Queued ==> s.works[j].status == Settled)
      && !(s.works[j].status == Running && s.works[k].status == Running)
  {
    RunKeeps(events);
  }

  /** No work is stuck: once everything before it on its capture settled, work may start, even
      behind a failure and even after `close`. */
  lemma NextMayStart(events: seq<Event>, t: nat)
    requires var s := Run(events);
      && t < |s.works| && s.works[t].status == Queued
      && forall j :: 0 <= j < t && s.works[j].id == s.works[t].id ==> s.works[j].status == Settled
    ensures MayStart(Run(events), t)
  {
    RunKeeps(events);
    assert ChainOk(Run(events).works, t);
  }

  /** Everything admitted before `close` settles before the database closes, and nothing is
      admitted after. */
  lemma CloseDrains(events: seq<Event>, id: Id)
    ensures var s := Run(events);
      && (s.databaseClosed ==> forall t :: 0 <= t < |s.works| ==> s.works[t].status == Settled)
      && (s.closed ==> Step(s, Admit(id)) == s)
  {
    RunKeeps(events);
  }

  // ----- the code -----

  class MutationQueues {
    var works: seq<Work>
    var tails: map<Id, nat>
    var closed: bool
    var awaited: set<nat>
    var databaseClosed: bool

    ghost function Now(): State
      reads this
    {
      State(works, tails, closed, awaited, databaseClosed)
    }

    constructor ()
      ensures Now() == EMPTY
    {
      works, tails, closed, awaited, databaseClosed := [], map[], false, {}, false;
    }

    /** `runExclusive`, up to its first await: admission behind the capture's tail. */
    method RunExclusive(id: Id) returns (ticket: Option<nat>)
      modifies this
      ensures Now() == Step(old(Now()), Admit(id))
      ensures if old(closed) then ticket == None else ticket == Some(|old(works)|)
    {
      if closed {
        return None;
      }
      var previous := if id in tails then Some(tails[id]) else None;
      ticket := Some(|works|);
      works := works + [Work(id, previous, Queued, false)];
      tails := tails[id := ticket.value];
    }

    method Begin(ticket: nat)
      requires MayStart(Now(), ticket)
      modifies this`works
      ensures Now() == Step(old(Now()), Start(ticket))
    {
      works := works[ticket := works[ticket].(status := Running)];
    }

    method Finish(ticket: nat)
      requires ticket < |works| && works[ticket].status == Running
      modifies this`works
      ensures Now() == Step(old(Now()), Settle(ticket))
    {
      works := works[ticket := works[ticket].(status := Settled)];
    }

    /** The tail's own clean-up: it forgets the tail only if that is still this work. */
    method CleanUp(ticket: nat)
      requires ticket < |works| && works[ticket].status == Settled && !works[ticket].swept
      modifies this
      ensures Now() == Step(old(Now()), Sweep(ticket))
    {
      var id := works[ticket].id;
      works := works[ticket := works[ticket].(swept := true)];
      if id in tails && tails[id] == ticket {
        tails := tails - {id};
      }
    }

    method StartClose()
      modifies this
      ensures Now() == Step(old(Now()), Close)
    {
      if closed {
        return;
      }
      closed := true;
      awaited := set t | 0 <= t < |works| && !works[t].swept;
    }

    /** The end of `close`, once every awaited tail settled. */
    method FinishClose()
      requires closed && forall t :: t in awaited ==> t < |works| && works[t].status == Settled
      modifies this`databaseClosed
      ensures Now() == Step(old(Now()), CloseDatabase)
      ensures Inv(old(Now())) ==> forall t :: 0 <= t < |works| ==> works[t].status == Settled
    {
      databaseClosed := true;
    }
  }
}
