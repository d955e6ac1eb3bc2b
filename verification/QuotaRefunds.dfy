/** Refunds that name the charge they undo (apps/realtime-gateway/src/quota.ts:61-87, called with
    the account of a charge the caller made): when the refund of one window's charge falls on a
    later window, and what then no longer holds. */
module QuotaRefunds {
  import opened Prelude
  import opened Quota

  /** An allowed charge: the window it opened or joined, known by the moment it resets, and
      whether the charge still stands. */
  datatype Ticket = Ticket(user: UserId, resetAt: real, standing: bool)

  datatype Book = Book(windows: map<UserId, Window>, tickets: seq<Ticket>)

  const NO_TICKETS := Book(map[], [])

  /** A caller charges an account, or gives back the charge it holds the ticket of. */
  datatype Deed = Spend(user: UserId, now: real) | GiveBack(ticket: nat, now: real)

  predicate Stands(b: Book, ticket: nat) {
    ticket < |b.tickets| && b.tickets[ticket].standing
  }

  /** A charge is given back at most once. */
  function Step(c: Config, b: Book, d: Deed): Book {
    match d
    case Spend(user, now) =>
      var (windows, verdict) := ChargeWindow(c, b.windows, user, now);
      Book(windows, if verdict.Allowed? then b.tickets + [Ticket(user, windows[user].resetAt, true)] else b.tickets)
    case GiveBack(ticket, now) =>
      if !Stands(b, ticket) then b
      else
        Book(RefundWindow(b.windows, b.tickets[ticket].user, now),
             b.tickets[ticket := b.tickets[ticket].(standing := false)])
  }

  function After(c: Config, b: Book, deeds: seq<Deed>): Book {
    if deeds == [] then b else Step(c, After(c, b, deeds[..|deeds| - 1]), deeds[|deeds| - 1])
  }

  /** What the ledger is asked for. */
  function Asked(c: Config, deeds: seq<Deed>): seq<Event> {
    if deeds == [] then [] else
      var before, d := deeds[..|deeds| - 1], deeds[|deeds| - 1];
      var b := After(c, NO_TICKETS, before);
      Asked(c, before) +
        match d
        case Spend(user, now) => [Charge(user, now)]
        case GiveBack(ticket, now) => if Stands(b, ticket) then [Refund(b.tickets[ticket].user, now)] else []
  }

  /** The book's windows are the ledger's. */
  lemma {:induction false} BookIsTheLedger(c: Config, deeds: seq<Deed>)
    ensures After(c, NO_TICKETS, deeds).windows == NeverSweeping(c, Asked(c, deeds)).windows
    decreases |deeds|
  {
    if deeds != [] {
      var before, d := deeds[..|deeds| - 1], deeds[|deeds| - 1];
      var b, events := After(c, NO_TICKETS, before), Asked(c, before);
      BookIsTheLedger(c, before);
      match d
      case Spend(user, now) => OneMoreEvent(c, events, Charge(user, now));
      case GiveBack(ticket, now) =>
        if Stands(b, ticket) {
          OneMoreEvent(c, events, Refund(b.tickets[ticket].user, now));
        } else {
          assert events + [] == events;
        }
    }
  }

  lemma OneMoreEvent(c: Config, events: seq<Event>, e: Event)
    ensures NeverSweeping(c, events + [e]).windows == WindowStep(c, NeverSweeping(c, events).windows, e)
  {
    assert (events + [e])[..|events|] == events;
  }

  // ----- the charges that stand in a window -----

  function Weight(user: UserId, resetAt: real): Ticket -> nat {
    (t: Ticket) => if t.standing && t.user == user && t.resetAt == resetAt then 1 else 0
  }

  /** The allowed charges of a window less the refunds of those charges. */
  function Standing(tickets: seq<Ticket>, user: UserId, resetAt: real): nat {
    Sum(Weight(user, resetAt), tickets)
  }

  /** No window of any account holds more than the allowance. */
  ghost predicate WithinAllowance(c: Config, tickets: seq<Ticket>) {
    forall u: UserId, r: real :: Standing(tickets, u, r) <= c.operations
  }

  /** The refund of a charge falls on a live window later than the charge's own, and takes a
      charge off it. */
  predicate Misses(b: Book, ticket: nat, now: real) {
    && Stands(b, ticket)
    && var t := b.tickets[ticket];
       HasLive(b.windows, t.user, now) && t.resetAt < b.windows[t.user].resetAt && b.windows[t.user].count > 0
  }

  /** Every ticket is of its account's latest window or of one that has passed. */
  ghost predicate TicketsOk(b: Book, now: real) {
    forall k :: 0 <= k < |b.tickets| ==>
      var t := b.tickets[k];
      && t.user in b.windows && t.resetAt <= b.windows[t.user].resetAt
      && (t.resetAt < b.windows[t.user].resetAt ==> t.resetAt <= now)
  }

  /** A live window's counter is the number of charges that stand in it. */
  ghost predicate Counted(c: Config, b: Book, now: real) {
    forall u :: u in b.windows ==>
      var w := b.windows[u];
      && Standing(b.tickets, u, w.resetAt) <= w.count <= c.operations
      && (now < w.resetAt ==> w.count == Standing(b.tickets, u, w.resetAt))
  }

  ghost predicate Inv(c: Config, b: Book, now: real) {
    TicketsOk(b, now) && Counted(c, b, now) && WithinAllowance(c, b.tickets)
  }

  lemma NoneOfANewWindow(b: Book, now: real, user: UserId, resetAt: real)
    requires TicketsOk(b, now) && (user in b.windows ==> b.windows[user].resetAt < resetAt)
    ensures Standing(b.tickets, user, resetAt) == 0
  {
    SumZero(Weight(user, resetAt), b.tickets);
  }

  predicate IsOf(t: Ticket, user: UserId, resetAt: real) {
    t.user == user && t.resetAt == resetAt
  }

  lemma OneMore(tickets: seq<Ticket>, t: Ticket)
    requires t.standing
    ensures forall u: UserId, r: real ::
      Standing(tickets + [t], u, r) == Standing(tickets, u, r) + if IsOf(t, u, r) then 1 else 0
  {
    forall u: UserId, r: real
      ensures Standing(tickets + [t], u, r) == Standing(tickets, u, r) + if IsOf(t, u, r) then 1 else 0
    {
      SumAppend(Weight(u, r), tickets, t);
    }
  }

  lemma OneLess(tickets: seq<Ticket>, k: nat)
    requires k < |tickets| && tickets[k].standing
    ensures var t := tickets[k];
      forall u: UserId, r: real ::
        Standing(tickets[k := t.(standing := false)], u, r) + (if IsOf(t, u, r) then 1 else 0)
        == Standing(tickets, u, r)
  {
    var t := tickets[k];
    forall u: UserId, r: real
      ensures Standing(tickets[k := t.(standing := false)], u, r) + (if IsOf(t, u, r) then 1 else 0)
           == Standing(tickets, u, r)
    {
      SumUpdate(Weight(u, r), tickets, k, t.(standing := false));
    }
  }

  lemma TimePasses(c: Config, b: Book, before: real, now: real)
    requires Inv(c, b, before) && before <= now
    ensures Inv(c, b, now)
  {
  }

  lemma SpendKeepsTickets(c: Config, b: Book, user: UserId, now: real)
    requires IsConfig(c) && TicketsOk(b, now)
    ensures TicketsOk(Step(c, b, Spend(user, now)), now)
  {
  }

  lemma SpendKeepsCounts(c: Config, b: Book, user: UserId, now: real)
    requires IsConfig(c) && Inv(c, b, now)
    ensures var t := Step(c, b, Spend(user, now)); Counted(c, t, now) && WithinAllowance(c, t.tickets)
  {
    var (windows, verdict) := ChargeWindow(c, b.windows, user, now);
    if verdict.Allowed? {
      var w := windows[user];
      if !HasLive(b.windows, user, now) { NoneOfANewWindow(b, now, user, w.resetAt); }
      OneMore(b.tickets, Ticket(user, w.resetAt, true));
    }
  }

  lemma SpendKeeps(c: Config, b: Book, user: UserId, now: real)
    requires IsConfig(c) && Inv(c, b, now)
    ensures Inv(c, Step(c, b, Spend(user, now)), now)
  {
    SpendKeepsTickets(c, b, user, now);
    SpendKeepsCounts(c, b, user, now);
  }

  lemma GiveBackKeepsTickets(c: Config, b: Book, ticket: nat, now: real)
    requires IsConfig(c) && TicketsOk(b, now)
    ensures TicketsOk(Step(c, b, GiveBack(ticket, now)), now)
  {
  }

  lemma GiveBackKeepsCounts(c: Config, b: Book, ticket: nat, now: real)
    requires IsConfig(c) && Inv(c, b, now) && !Misses(b, ticket, now) && Stands(b, ticket)
    ensures var t := Step(c, b, GiveBack(ticket, now)); Counted(c, t, now) && WithinAllowance(c, t.tickets)
  {
    OneLess(b.tickets, ticket);
    var t := Step(c, b, GiveBack(ticket, now));
    forall u: UserId, r: real ensures Standing(t.tickets, u, r) <= c.operations {
      assert Standing(t.tickets, u, r) <= Standing(b.tickets, u, r);
    }
  }

  lemma GiveBackKeeps(c: Config, b: Book, ticket: nat, now: real)
    requires IsConfig(c) && Inv(c, b, now) && !Misses(b, ticket, now)
    ensures Inv(c, Step(c, b, GiveBack(ticket, now)), now)
  {
    if Stands(b, ticket) {
      GiveBackKeepsTickets(c, b, ticket, now);
      GiveBackKeepsCounts(c, b, ticket, now);
    }
  }

  // ----- whole runs -----

  function LastReading(deeds: seq<Deed>): real {
    if deeds == [] then 0.0 else deeds[|deeds| - 1].now
  }

  ghost predicate ReadingsGrow(deeds: seq<Deed>) {
    deeds != [] ==> LastReading(deeds[..|deeds| - 1]) <= LastReading(deeds) && ReadingsGrow(deeds[..|deeds| - 1])
  }

  /** No refund of the run misses its window. */
  ghost predicate NoneMisses(c: Config, deeds: seq<Deed>) {
    deeds != [] ==>
      var before, d := deeds[..|deeds| - 1], deeds[|deeds| - 1];
      NoneMisses(c, before) && (d.GiveBack? ==> !Misses(After(c, NO_TICKETS, before), d.ticket, d.now))
  }

  lemma {:induction false} RunKeeps(c: Config, deeds: seq<Deed>)
    requires IsConfig(c) && ReadingsGrow(deeds) && NoneMisses(c, deeds)
    ensures Inv(c, After(c, NO_TICKETS, deeds), LastReading(deeds))
    decreases |deeds|
  {
    if deeds != [] {
      var before, d := deeds[..|deeds| - 1], deeds[|deeds| - 1];
      var b := After(c, NO_TICKETS, before);
      RunKeeps(c, before);
      TimePasses(c, b, LastReading(before), d.now);
      match d
      case Spend(user, now) => SpendKeeps(c, b, user, now);
      case GiveBack(ticket, now) => GiveBackKeeps(c, b, ticket, now);
    }
  }

  /** While no refund misses, each window's allowed charges less the refunds of those charges stay
      within the allowance, and a live window's counter is exactly what stands in it. */
  lemma NoMissNoOverspending(c: Config, deeds: seq<Deed>)
    requires IsConfig(c) && ReadingsGrow(deeds) && NoneMisses(c, deeds)
    ensures var b := After(c, NO_TICKETS, deeds);
      && WithinAllowance(c, b.tickets)
      && forall u :: HasLive(b.windows, u, LastReading(deeds)) ==>
           b.windows[u].count == Standing(b.tickets, u, b.windows[u].resetAt)
  {
    RunKeeps(c, deeds);
  }

  /** What a charge is answered while no refund misses: it is allowed if and only if the account has no
      live window or fewer charges stand in it than the allowance, and what remains is the allowance
      less the charges that stand in the window with this one. */
  lemma ChargeAnswers(c: Config, deeds: seq<Deed>, user: UserId, now: real)
    requires IsConfig(c) && ReadingsGrow(deeds) && NoneMisses(c, deeds) && LastReading(deeds) <= now
    ensures var b := After(c, NO_TICKETS, deeds);
      var (windows, verdict) := ChargeWindow(c, b.windows, user, now);
      var t := Step(c, b, Spend(user, now));
      && (verdict.Allowed? <==>
            HasLive(b.windows, user, now) ==> Standing(b.tickets, user, b.windows[user].resetAt) < c.operations)
      && (verdict.Allowed? ==>
            && windows[user].resetAt
               == (if HasLive(b.windows, user, now) then b.windows[user].resetAt else now + c.windowMs)
            && verdict.remaining == c.operations - Standing(t.tickets, user, windows[user].resetAt))
  {
    var b := After(c, NO_TICKETS, deeds);
    RunKeeps(c, deeds);
    TimePasses(c, b, LastReading(deeds), now);
    AnswerCounts(c, b, user, now);
  }

  lemma AnswerCounts(c: Config, b: Book, user: UserId, now: real)
    requires IsConfig(c) && Inv(c, b, now)
    ensures var (windows, verdict) := ChargeWindow(c, b.windows, user, now);
      var t := Step(c, b, Spend(user, now));
      && (HasLive(b.windows, user, now) ==> b.windows[user].count == Standing(b.tickets, user, b.windows[user].resetAt))
      && (verdict.Allowed? ==> verdict.remaining == c.operations - Standing(t.tickets, user, windows[user].resetAt))
  {
    var (windows, verdict) := ChargeWindow(c, b.windows, user, now);
    if verdict.Allowed? {
      var r := windows[user].resetAt;
      SumAppend(Weight(user, r), b.tickets, Ticket(user, r, true));
      if !HasLive(b.windows, user, now) { NoneOfANewWindow(b, now, user, r); }
    }
  }

  /** A refund made before its charge's window resets never misses; nor does one made while the
      account has no live window. */
  lemma PromptRefundHits(c: Config, deeds: seq<Deed>, ticket: nat, now: real)
    requires IsConfig(c) && ReadingsGrow(deeds) && NoneMisses(c, deeds) && LastReading(deeds) <= now
    requires Stands(After(c, NO_TICKETS, deeds), ticket)
    ensures var b := After(c, NO_TICKETS, deeds); var t := b.tickets[ticket];
      now < t.resetAt || !HasLive(b.windows, t.user, now) ==> !Misses(b, ticket, now)
    ensures var b := After(c, NO_TICKETS, deeds); var t := b.tickets[ticket];
      Misses(b, ticket, now) <==> t.resetAt <= now && HasLive(b.windows, t.user, now) && b.windows[t.user].count > 0
  {
    RunKeeps(c, deeds);
  }

  // ----- what a miss costs -----

  /** `n` charges at one moment. */
  function Spends(user: UserId, now: real, n: nat): seq<Deed> {
    if n == 0 then [] else Spends(user, now, n - 1) + [Spend(user, now)]
  }

  lemma SpendFills(c: Config, b: Book, user: UserId, now: real)
    requires HasLive(b.windows, user, now) && b.windows[user].count < c.operations
    ensures var t, w := Step(c, b, Spend(user, now)), b.windows[user];
      && t.windows == b.windows[user := Window(w.count + 1, w.resetAt)]
      && Standing(t.tickets, user, w.resetAt) == Standing(b.tickets, user, w.resetAt) + 1
  {
    OneMore(b.tickets, Ticket(user, b.windows[user].resetAt, true));
  }

  lemma {:induction false} SpendsFill(c: Config, b: Book, user: UserId, now: real, n: nat)
    requires HasLive(b.windows, user, now) && b.windows[user].count + n <= c.operations
    ensures var t, w := After(c, b, Spends(user, now, n)), b.windows[user];
      && t.windows == b.windows[user := Window(w.count + n, w.resetAt)]
      && Standing(t.tickets, user, w.resetAt) == Standing(b.tickets, user, w.resetAt) + n
  {
    if n > 0 {
      SpendsFill(c, b, user, now, n - 1);
      SpendFills(c, After(c, b, Spends(user, now, n - 1)), user, now);
      var all := Spends(user, now, n);
      assert all[..|all| - 1] == Spends(user, now, n - 1);
    }
  }

  ghost predicate OnlySpends(deeds: seq<Deed>, from: real) {
    deeds != [] ==>
      var before, d := deeds[..|deeds| - 1], deeds[|deeds| - 1];
      OnlySpends(before, from) && d.Spend? && from <= d.now && LastReading(before) <= d.now
  }

  /** Whatever is charged from now on, every window stays within the allowance. */
  ghost predicate Safe(c: Config, b: Book, now: real) {
    forall more :: OnlySpends(more, now) ==> WithinAllowance(c, After(c, b, more).tickets)
  }

  lemma {:induction false} SpendsKeep(c: Config, b: Book, now: real, more: seq<Deed>)
    requires IsConfig(c) && Inv(c, b, now) && OnlySpends(more, now)
    ensures Inv(c, After(c, b, more), if more == [] then now else LastReading(more))
    decreases |more|
  {
    if more != [] {
      var before, d := more[..|more| - 1], more[|more| - 1];
      SpendsKeep(c, b, now, before);
      TimePasses(c, After(c, b, before), if before == [] then now else LastReading(before), d.now);
      SpendKeeps(c, After(c, b, before), d.user, d.now);
    }
  }

  lemma {:induction false} SpendsAreOnlySpends(user: UserId, now: real, n: nat)
    requires 0.0 <= now
    ensures OnlySpends(Spends(user, now, n), now)
  {
    if n > 0 {
      SpendsAreOnlySpends(user, now, n - 1);
      var all := Spends(user, now, n);
      assert all[..|all| - 1] == Spends(user, now, n - 1);
      if n > 1 { assert LastReading(Spends(user, now, n - 1)) == now; }
    }
  }

  lemma MissIsNotSafe(c: Config, b: Book, ticket: nat, now: real)
    requires IsConfig(c) && Inv(c, b, now) && Misses(b, ticket, now) && 0.0 <= now
    ensures !Safe(c, Step(c, b, GiveBack(ticket, now)), now)
  {
    var t, u := Step(c, b, GiveBack(ticket, now)), b.tickets[ticket].user;
    var r := b.windows[u].resetAt;
    OneLess(b.tickets, ticket);
    var n := c.operations - t.windows[u].count;
    SpendsFill(c, t, u, now, n);
    SpendsAreOnlySpends(u, now, n);
    var filled := After(c, t, Spends(u, now, n));
    assert Standing(filled.tickets, u, r) == c.operations + 1;
    assert !WithinAllowance(c, filled.tickets);
  }

  lemma InvIsSafe(c: Config, b: Book, now: real)
    requires IsConfig(c) && Inv(c, b, now)
    ensures Safe(c, b, now)
  {
    forall more | OnlySpends(more, now) ensures WithinAllowance(c, After(c, b, more).tickets) {
      SpendsKeep(c, b, now, more);
    }
  }

  /** A refund undoes a charge, so that every window stays within the allowance whatever is
      charged next, if and only if it does not miss: it comes before its charge's window resets,
      or finds no live window of the account or an empty one. */
  lemma RefundUndoesChargeIff(c: Config, deeds: seq<Deed>, ticket: nat, now: real)
    requires IsConfig(c) && ReadingsGrow(deeds) && NoneMisses(c, deeds) && LastReading(deeds) <= now
    ensures var b := After(c, NO_TICKETS, deeds);
      Safe(c, Step(c, b, GiveBack(ticket, now)), now) <==> !Misses(b, ticket, now)
  {
    var b := After(c, NO_TICKETS, deeds);
    ReadingsArePositive(deeds);
    RunKeeps(c, deeds);
    TimePasses(c, b, LastReading(deeds), now);
    if Misses(b, ticket, now) {
      MissIsNotSafe(c, b, ticket, now);
    } else {
      GiveBackKeeps(c, b, ticket, now);
      InvIsSafe(c, Step(c, b, GiveBack(ticket, now)), now);
    }
  }

  /** At every moment of the run the allowance is safe against all further charges. */
  ghost predicate SafeThroughout(c: Config, deeds: seq<Deed>) {
    && Safe(c, After(c, NO_TICKETS, deeds), LastReading(deeds))
    && (deeds != [] ==> SafeThroughout(c, deeds[..|deeds| - 1]))
  }

  /** Over whole runs: the allowance is safe throughout if and only if no refund misses. */
  lemma {:induction false} RefundsAreSafeIff(c: Config, deeds: seq<Deed>)
    requires IsConfig(c) && ReadingsGrow(deeds)
    ensures SafeThroughout(c, deeds) <==> NoneMisses(c, deeds)
    decreases |deeds|
  {
    if NoneMisses(c, deeds) {
      RunKeeps(c, deeds);
      InvIsSafe(c, After(c, NO_TICKETS, deeds), LastReading(deeds));
    }
    if deeds != [] {
      var before, d := deeds[..|deeds| - 1], deeds[|deeds| - 1];
      RefundsAreSafeIff(c, before);
      if NoneMisses(c, before) && d.GiveBack? { RefundUndoesChargeIff(c, before, d.ticket, d.now); }
    }
  }

  lemma {:induction false} ReadingsArePositive(deeds: seq<Deed>)
    requires ReadingsGrow(deeds)
    ensures 0.0 <= LastReading(deeds)
    decreases |deeds|
  {
    if deeds != [] { ReadingsArePositive(deeds[..|deeds| - 1]); }
  }
}
