/** Per-account quota windows (apps/realtime-gateway/src/quota.ts): a ledger that forgets
    passed windows lazily answers like one that never forgets. */
module Quota {
  import opened Prelude

  type UserId = string

  datatype Window = Window(count: nat, resetAt: real)
  datatype Ledger = Ledger(windows: map<UserId, Window>, lastSweep: real)
  datatype Verdict = Allowed(remaining: int) | Refused(retryAfterSeconds: int)

  /** `operations` charges per window of `windowMs` milliseconds; the constructor rejects others. */
  datatype Config = Config(operations: nat, windowMs: real)

  predicate IsConfig(c: Config) {
    c.operations > 0 && c.windowMs > 0.0
  }

  const EMPTY := Ledger(map[], 0.0)

  // ----- single operations -----

  function Ceil(x: real): int {
    -(-x).Floor
  }

  predicate HasLive(windows: map<UserId, Window>, user: UserId, now: real) {
    user in windows && now < windows[user].resetAt
  }

  /** What `charge` answers and does once passed windows have been swept or not. */
  function ChargeWindow(c: Config, windows: map<UserId, Window>, user: UserId, now: real)
    : (map<UserId, Window>, Verdict) {
    if !HasLive(windows, user, now) then
      (windows[user := Window(1, now + c.windowMs)], Allowed(c.operations - 1))
    else
      var w := windows[user];
      if w.count >= c.operations then (windows, Refused(Max(1, Ceil((w.resetAt - now) / 1000.0))))
      else (windows[user := Window(w.count + 1, w.resetAt)], Allowed(c.operations - (w.count + 1)))
  }

  function RefundWindow(windows: map<UserId, Window>, user: UserId, now: real): map<UserId, Window> {
    if !HasLive(windows, user, now) then windows
    else
      var w := windows[user];
      windows[user := Window(if w.count == 0 then 0 else w.count - 1, w.resetAt)]
  }

  /** The windows still open at `now`. */
  function Open(windows: map<UserId, Window>, now: real): map<UserId, Window> {
    map u | u in windows && now < windows[u].resetAt :: windows[u]
  }

  function Swept(c: Config, l: Ledger, now: real): Ledger {
    if now - l.lastSweep < c.windowMs then l else Ledger(Open(l.windows, now), now)
  }

  // ----- runs, with and without sweeping -----

  datatype Event = Charge(user: UserId, now: real) | Refund(user: UserId, now: real)

  /** A run's ledger and the verdicts given so far. */
  datatype Run = Run(ledger: Ledger, verdicts: seq<Verdict>)
  datatype PlainRun = PlainRun(windows: map<UserId, Window>, verdicts: seq<Verdict>)

  function LedgerStep(c: Config, l: Ledger, e: Event): Ledger {
    match e
    case Charge(user, now) =>
      var swept := Swept(c, l, now);
      swept.(windows := ChargeWindow(c, swept.windows, user, now).0)
    case Refund(user, now) => l.(windows := RefundWindow(l.windows, user, now))
  }

  function WindowStep(c: Config, windows: map<UserId, Window>, e: Event): map<UserId, Window> {
    match e
    case Charge(user, now) => ChargeWindow(c, windows, user, now).0
    case Refund(user, now) => RefundWindow(windows, user, now)
  }

  function Sweeping(c: Config, events: seq<Event>): Run {
    if events == [] then Run(EMPTY, []) else
      var before, e := Sweeping(c, events[..|events| - 1]), events[|events| - 1];
      Run(LedgerStep(c, before.ledger, e),
          before.verdicts + if e.Refund? then [] else
            [ChargeWindow(c, Swept(c, before.ledger, e.now).windows, e.user, e.now).1])
  }

  function NeverSweeping(c: Config, events: seq<Event>): PlainRun {
    if events == [] then PlainRun(map[], []) else
      var before, e := NeverSweeping(c, events[..|events| - 1]), events[|events| - 1];
      PlainRun(WindowStep(c, before.windows, e),
               before.verdicts + if e.Refund? then [] else [ChargeWindow(c, before.windows, e.user, e.now).1])
  }

  function LastTime(events: seq<Event>): real {
    if events == [] then 0.0 else events[|events| - 1].now
  }

  /** The clock starts at zero or later and never runs backwards. */
  ghost predicate ClockMoves(events: seq<Event>) {
    events != [] ==>
      LastTime(events[..|events| - 1]) <= LastTime(events) && ClockMoves(events[..|events| - 1])
  }

  /** No reading of the clock comes before the reading of the latest sweep. */
  ghost predicate NeverBeforeSweep(c: Config, events: seq<Event>) {
    events != [] ==>
      var before := events[..|events| - 1];
      NeverBeforeSweep(c, before) && Sweeping(c, before).ledger.lastSweep <= LastTime(events)
  }

  lemma {:induction false} MovingClockIsNeverBefore(c: Config, events: seq<Event>)
    requires ClockMoves(events)
    ensures NeverBeforeSweep(c, events) && Sweeping(c, events).ledger.lastSweep <= LastTime(events)
    decreases |events|
  {
    if events != [] { MovingClockIsNeverBefore(c, events[..|events| - 1]); }
  }

  /** The swept windows are those of the unswept ledger, less some that had passed at `sweep`. */
  ghost predicate Forgets(swept: map<UserId, Window>, kept: map<UserId, Window>, sweep: real) {
    && (forall u :: u in swept ==> u in kept && kept[u] == swept[u])
    && (forall u :: u in kept && u !in swept ==> kept[u].resetAt <= sweep)
  }

  lemma SweepForgets(c: Config, l: Ledger, kept: map<UserId, Window>, now: real)
    requires Forgets(l.windows, kept, l.lastSweep) && l.lastSweep <= now
    ensures var m := Swept(c, l, now); Forgets(m.windows, kept, m.lastSweep) && m.lastSweep <= now
  {
  }

  lemma StepForgets(c: Config, swept: map<UserId, Window>, kept: map<UserId, Window>, sweep: real, e: Event)
    requires Forgets(swept, kept, sweep) && sweep <= e.now
    ensures Forgets(WindowStep(c, swept, e), WindowStep(c, kept, e), sweep)
    ensures ChargeWindow(c, swept, e.user, e.now).1 == ChargeWindow(c, kept, e.user, e.now).1
  {
    assert HasLive(swept, e.user, e.now) == HasLive(kept, e.user, e.now);
  }

  lemma {:induction false} RunsAgree(c: Config, events: seq<Event>)
    requires NeverBeforeSweep(c, events)
    ensures var l := Sweeping(c, events).ledger; Forgets(l.windows, NeverSweeping(c, events).windows, l.lastSweep)
    ensures Sweeping(c, events).verdicts == NeverSweeping(c, events).verdicts
    decreases |events|
  {
    if events != [] {
      var before, e := events[..|events| - 1], events[|events| - 1];
      RunsAgree(c, before);
      var l, kept := Sweeping(c, before).ledger, NeverSweeping(c, before).windows;
      SweepForgets(c, l, kept, e.now);
      var m := if e.Charge? then Swept(c, l, e.now) else l;
      StepForgets(c, m.windows, kept, m.lastSweep, e);
    }
  }

  /** Sweeping is unobservable: every run in which the clock never reads earlier than the latest
      sweep gets the verdicts of a ledger that keeps every window for ever. */
  lemma SweepingIsUnobservable(c: Config, events: seq<Event>)
    requires NeverBeforeSweep(c, events)
    ensures Sweeping(c, events).verdicts == NeverSweeping(c, events).verdicts
  {
    RunsAgree(c, events);
  }

  /** With a clock that steps back behind a sweep it can be observable: the ledger forgot a window that is open
      again, and allows what it should refuse. */
  lemma BackwardClockIsObservable()
    ensures exists c, events :: IsConfig(c) && Sweeping(c, events).verdicts != NeverSweeping(c, events).verdicts
  {
    var c := Config(1, 1000.0);
    var e1, e2, e3 := Charge("a", 0.0), Charge("b", 2000.0), Charge("a", 500.0);
    assert [e1][..0] == [] && [e1, e2][..1] == [e1] && [e1, e2, e3][..2] == [e1, e2];
    var w := Window(1, 1000.0);
    assert Sweeping(c, [e1]).ledger == Ledger(map["a" := w], 0.0);
    assert NeverSweeping(c, [e1]).windows == map["a" := w];
    var l := Sweeping(c, [e1, e2]).ledger;
    assert "a" !in l.windows && |Sweeping(c, [e1, e2]).verdicts| == 2 && |NeverSweeping(c, [e1, e2]).verdicts| == 2;
    assert NeverSweeping(c, [e1, e2]).windows["a"] == w;
    assert Sweeping(c, [e1, e2, e3]).verdicts[2] == Allowed(0);
    assert NeverSweeping(c, [e1, e2, e3]).verdicts[2].Refused?;
  }

  // ----- what the ledger keeps -----

  ghost predicate Kept(c: Config, l: Ledger, now: real) {
    && l.lastSweep <= now
    && forall u :: u in l.windows ==>
         l.lastSweep < l.windows[u].resetAt <= now + c.windowMs && l.windows[u].count <= c.operations
  }

  /** Every window kept resets after the last sweep, at most one window's length ahead, and
      never holds more than the allowance. */
  lemma {:induction false} KeptWindows(c: Config, events: seq<Event>)
    requires IsConfig(c) && ClockMoves(events)
    ensures Kept(c, Sweeping(c, events).ledger, LastTime(events))
    decreases |events|
  {
    if events != [] {
      KeptWindows(c, events[..|events| - 1]);
    }
  }

  /** An account's window resets one window's length after the charge that opened it: when that came,
      no window of the account was live. */
  lemma {:induction false} WindowOpensWithACharge(c: Config, events: seq<Event>, user: UserId) returns (n: nat)
    requires user in NeverSweeping(c, events).windows
    ensures n < |events| && events[n].Charge? && events[n].user == user
    ensures NeverSweeping(c, events).windows[user].resetAt == events[n].now + c.windowMs
    ensures !HasLive(NeverSweeping(c, events[..n]).windows, user, events[n].now)
    decreases |events|
  {
    var before, e := events[..|events| - 1], events[|events| - 1];
    var windows := NeverSweeping(c, before).windows;
    if e.Charge? && e.user == user && !HasLive(windows, user, e.now) {
      n := |before|;
    } else {
      n := WindowOpensWithACharge(c, before, user);
      assert before[..n] == events[..n];
    }
  }

  /** Charges allowed and refunds asked for in an account's current window. */
  datatype Tally = Tally(allowed: nat, refunded: nat)

  function Spent(c: Config, events: seq<Event>, user: UserId): Tally {
    if events == [] then Tally(0, 0) else
      var e := events[|events| - 1];
      var before, windows := Spent(c, events[..|events| - 1], user), NeverSweeping(c, events[..|events| - 1]).windows;
      if e.user != user then before
      else if !HasLive(windows, user, e.now) then (if e.Charge? then Tally(1, 0) else before)
      else if e.Refund? then before.(refunded := before.refunded + 1)
      else if windows[user].count < c.operations then before.(allowed := before.allowed + 1)
      else before
  }

  /** In any window, charges allowed less refunds never exceed the allowance, and the counter
      never hides a charge that was not refunded. */
  lemma {:induction false} NetSpendingIsBounded(c: Config, events: seq<Event>, user: UserId)
    requires IsConfig(c)
    ensures var t := Spent(c, events, user); t.allowed - t.refunded <= c.operations
    ensures var t, windows := Spent(c, events, user), NeverSweeping(c, events).windows;
      user in windows ==>
        t.allowed - t.refunded <= windows[user].count <= c.operations && windows[user].count <= t.allowed
    ensures user !in NeverSweeping(c, events).windows ==> Spent(c, events, user) == Tally(0, 0)
    decreases |events|
  {
    if events != [] {
      NetSpendingIsBounded(c, events[..|events| - 1], user);
    }
  }

  /** A refusal charges nothing and moves no reset, and the delay it names is the least whole
      number of seconds (section 10.2.3 of RFC 9110), at least one, that reaches the reset. */
  lemma RefusalIsHonest(c: Config, windows: map<UserId, Window>, user: UserId, now: real)
    requires ChargeWindow(c, windows, user, now).1.Refused?
    ensures ChargeWindow(c, windows, user, now).0 == windows && user in windows
    ensures var s := ChargeWindow(c, windows, user, now).1.retryAfterSeconds;
      && s >= 1 && now + 1000.0 * s as real >= windows[user].resetAt
      && (s > 1 ==> now + 1000.0 * (s - 1) as real < windows[user].resetAt)
  {
    var x := (windows[user].resetAt - now) / 1000.0;
    assert x * 1000.0 == windows[user].resetAt - now;
    assert (-x).Floor as real <= -x < (-x).Floor as real + 1.0;
  }

  ghost predicate ByOthers(events: seq<Event>, user: UserId) {
    forall k :: 0 <= k < |events| ==> events[k].user != user
  }

  function LedgerRun(c: Config, l: Ledger, events: seq<Event>): Ledger {
    if events == [] then l else LedgerStep(c, LedgerRun(c, l, events[..|events| - 1]), events[|events| - 1])
  }

  lemma {:induction false} OthersLeaveWindow(c: Config, l: Ledger, events: seq<Event>, user: UserId)
    requires ByOthers(events, user)
    ensures var m := LedgerRun(c, l, events);
      user in m.windows ==> user in l.windows && m.windows[user] == l.windows[user]
    decreases |events|
  {
    if events != [] {
      OthersLeaveWindow(c, l, events[..|events| - 1], user);
    }
  }

  /** A refused account that waits the delay it was given is admitted, whatever others do meanwhile. */
  lemma WaitingAdmits(c: Config, l: Ledger, user: UserId, now: real, events: seq<Event>, later: real)
    requires ChargeWindow(c, l.windows, user, now).1.Refused? && ByOthers(events, user)
    requires later >= now + 1000.0 * ChargeWindow(c, l.windows, user, now).1.retryAfterSeconds as real
    ensures ChargeWindow(c, Swept(c, LedgerRun(c, l, events), later).windows, user, later).1.Allowed?
  {
    RefusalIsHonest(c, l.windows, user, now);
    OthersLeaveWindow(c, l, events, user);
  }

  lemma ChargeThenLateRefund(c: Config, e1: Event, e2: Event, e3: Event)
    requires c == Config(1, 1000.0) && e1 == Charge("a", 0.0) && e2 == Charge("a", 1000.0) && e3 == Refund("a", 1001.0)
    ensures ClockMoves([e1, e2, e3])
    ensures NeverSweeping(c, [e1, e2, e3]) == PlainRun(map["a" := Window(0, 2000.0)], [Allowed(0), Allowed(0)])
  {
    assert [e1][..0] == [] && [e1, e2][..1] == [e1] && [e1, e2, e3][..2] == [e1, e2];
    assert ClockMoves([e1]) && ClockMoves([e1, e2]);
    assert NeverSweeping(c, [e1]) == PlainRun(map["a" := Window(1, 1000.0)], [Allowed(0)]);
    assert NeverSweeping(c, [e1, e2]) == PlainRun(map["a" := Window(1, 2000.0)], [Allowed(0), Allowed(0)]);
  }

  /** One charge a window: a refund that arrives after the next window opened frees that
      window's charge, and two charges stand in one window. */
  lemma LateRefundFreesTheNextWindow()
    ensures var c := Config(1, 1000.0);
      var events := [Charge("a", 0.0), Charge("a", 1000.0), Refund("a", 1001.0), Charge("a", 1002.0)];
      ClockMoves(events) && Sweeping(c, events).verdicts == [Allowed(0), Allowed(0), Allowed(0)]
  {
    var c := Config(1, 1000.0);
    var e1, e2, e3, e4 := Charge("a", 0.0), Charge("a", 1000.0), Refund("a", 1001.0), Charge("a", 1002.0);
    var events := [e1, e2, e3, e4];
    assert events[..3] == [e1, e2, e3];
    ChargeThenLateRefund(c, e1, e2, e3);
    assert ClockMoves(events);
    assert NeverSweeping(c, events).verdicts == [Allowed(0), Allowed(0), Allowed(0)];
    MovingClockIsNeverBefore(c, events);
    SweepingIsUnobservable(c, events);
  }

  // ----- the code -----

  class QuotaLedger {
    const config: Config
    var windows: map<UserId, Window>
    var lastSweep: real

    ghost function Now(): Ledger
      reads this
    {
      Ledger(windows, lastSweep)
    }

    constructor (config: Config)
      requires IsConfig(config)
      ensures this.config == config && Now() == EMPTY
    {
      this.config := config;
      windows, lastSweep := map[], 0.0;
    }

    /** Drops passed windows, at most once a window's length. */
    method Sweep(now: real)
      modifies this
      ensures Now() == Swept(config, old(Now()), now)
    {
      if now - lastSweep < config.windowMs {
        return;
      }
      lastSweep := now;
      var todo := windows.Keys;
      while todo != {}
        invariant todo <= windows.Keys <= old(windows).Keys
        invariant forall u :: u in windows ==> windows[u] == old(windows)[u]
        invariant forall u :: u in windows && u !in todo ==> now < windows[u].resetAt
        invariant forall u :: u in old(windows) && u !in windows ==> old(windows)[u].resetAt <= now
        invariant lastSweep == now
        decreases |todo|
      {
        var u :| u in todo;
        todo := todo - {u};
        if now >= windows[u].resetAt {
          windows := windows - {u};
        }
      }
      assert windows == Open(old(windows), now);
    }

    method Charge(user: UserId, now: real) returns (verdict: Verdict)
      modifies this
      ensures Now() == LedgerStep(config, old(Now()), Event.Charge(user, now))
      ensures verdict == ChargeWindow(config, Swept(config, old(Now()), now).windows, user, now).1
    {
      Sweep(now);
      if user !in windows || now >= windows[user].resetAt {
        windows := windows[user := Window(1, now + config.windowMs)];
        return Allowed(config.operations - 1);
      }
      var window := windows[user];
      if window.count >= config.operations {
        return Refused(Max(1, Ceil((window.resetAt - now) / 1000.0)));
      }
      windows := windows[user := window.(count := window.count + 1)];
      verdict := Allowed(config.operations - (window.count + 1));
    }

    method Refund(user: UserId, now: real)
      modifies this`windows
      ensures Now() == LedgerStep(config, old(Now()), Event.Refund(user, now))
    {
      if user !in windows || now >= windows[user].resetAt {
        return;
      }
      var window := windows[user];
      windows := windows[user := window.(count := if window.count == 0 then 0 else window.count - 1)];
    }
  }
}
