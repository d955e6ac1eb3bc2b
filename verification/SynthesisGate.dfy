/** The synthesis gate (apps/realtime-gateway/src/synthesis-gate.ts): slots handed to a first-in
    first-out queue. A hand-off resolves a waiter's promise; the waiter takes its slot only when
    it resumes, so arrivals and endings can fall in between. */
module SynthesisGates {
  import opened Prelude

  type Request = nat

  datatype Config = Config(maxInFlight: nat, maxQueued: nat)

  /** `handed` holds the waiters whose promise was resolved and who have not resumed yet. The
      last three fields log who ever queued, who ever started and how many finished. */
  datatype State = State(
    inFlight: nat, waiting: seq<Request>, handed: seq<Request>, meanSeconds: real,
    queued: seq<Request>, resumed: seq<Request>, started: nat, finished: nat)

  function Initial(initialSeconds: real): State {
    State(0, [], [], initialSeconds, [], [], 0, 0)
  }

  datatype Event = Arrive(request: Request) | Resume | Finish(seconds: real)

  function Mean(mean: real, seconds: real): real {
    mean * 0.7 + seconds * 0.3
  }

  function Started(s: State): State {
    s.(inFlight := s.inFlight + 1, started := s.started + 1)
  }

  /** One atomic segment; an event that cannot happen leaves the gate alone. */
  function Step(c: Config, s: State, e: Event): State {
    match e
    case Arrive(request) =>
      if s.inFlight < c.maxInFlight then Started(s)
      else if |s.waiting| >= c.maxQueued then s
      else s.(waiting := s.waiting + [request], queued := s.queued + [request])
    case Resume =>
      if s.handed == [] then s
      else Started(s.(handed := s.handed[1..], resumed := s.resumed + [s.handed[0]]))
    case Finish(seconds) =>
      if s.inFlight == 0 then s
      else
        var t := s.(inFlight := s.inFlight - 1, finished := s.finished + 1,
                    meanSeconds := Mean(s.meanSeconds, seconds));
        if t.waiting == [] then t
        else t.(handed := t.handed + [t.waiting[0]], waiting := t.waiting[1..])
  }

  function Run(c: Config, initial: State, events: seq<Event>): State {
    if events == [] then initial else Step(c, Run(c, initial, events[..|events| - 1]), events[|events| - 1])
  }

  ghost predicate Inv(c: Config, s: State) {
    && (s.waiting != [] ==> s.inFlight + |s.handed| >= c.maxInFlight)
    && |s.waiting| <= c.maxQueued
    && s.queued == s.resumed + s.handed + s.waiting
    && s.started == s.finished + s.inFlight
  }

  lemma StepKeeps(c: Config, s: State, e: Event)
    requires Inv(c, s)
    ensures Inv(c, Step(c, s, e))
  {
    var t := Step(c, s, e);
    match e
    case Arrive(request) =>
    case Resume =>
      if s.handed != [] { assert s.handed == [s.handed[0]] + t.handed; }
    case Finish(_) =>
      if s.inFlight > 0 && s.waiting != [] { assert s.waiting == [s.waiting[0]] + t.waiting; }
  }

  lemma {:induction false} RunKeeps(c: Config, initialSeconds: real, events: seq<Event>)
    ensures Inv(c, Run(c, Initial(initialSeconds), events))
    decreases |events|
  {
    if events != [] {
      RunKeeps(c, initialSeconds, events[..|events| - 1]);
      StepKeeps(c, Run(c, Initial(initialSeconds), events[..|events| - 1]), events[|events| - 1]);
    }
  }

  /** In every interleaving: no slot idles while someone waits, the queue stays short, waiters
      get slots in the order they queued, and every start is a finish or still in flight. */
  lemma GateIsFairAndFull(c: Config, initialSeconds: real, events: seq<Event>)
    ensures var s := Run(c, Initial(initialSeconds), events);
      && (s.waiting != [] ==> s.inFlight + |s.handed| >= c.maxInFlight)
      && |s.waiting| <= c.maxQueued
      && s.resumed <= s.queued && s.queued == s.resumed + s.handed + s.waiting
      && s.started == s.finished + s.inFlight
  {
    RunKeeps(c, initialSeconds, events);
  }

  // ----- the ceiling on work in flight -----

  /** Running requests and those about to resume are within the limit. */
  predicate WithinLimit(c: Config, s: State) {
    s.inFlight + |s.handed| <= c.maxInFlight
  }

  /** An arrival that takes a slot already handed to a waiter. */
  predicate Barges(c: Config, s: State, e: Event) {
    e.Arrive? && s.inFlight < c.maxInFlight && s.inFlight + |s.handed| >= c.maxInFlight
  }

  /** A segment keeps the limit exactly when it is not such an arrival. */
  lemma LimitKeptIff(c: Config, s: State, e: Event)
    requires WithinLimit(c, s)
    ensures WithinLimit(c, Step(c, s, e)) <==> !Barges(c, s, e)
  {
  }

  ghost predicate Polite(c: Config, initial: State, events: seq<Event>) {
    events != [] ==>
      var before := events[..|events| - 1];
      Polite(c, initial, before) && !Barges(c, Run(c, initial, before), events[|events| - 1])
  }

  lemma {:induction false} LimitHolds(c: Config, initialSeconds: real, events: seq<Event>)
    requires Polite(c, Initial(initialSeconds), events)
    ensures WithinLimit(c, Run(c, Initial(initialSeconds), events))
    decreases |events|
  {
    if events != [] {
      var before := events[..|events| - 1];
      LimitHolds(c, initialSeconds, before);
      LimitKeptIff(c, Run(c, Initial(initialSeconds), before), events[|events| - 1]);
    }
  }

  /** When every waiter resumes before the next arrival, no more than `maxInFlight` ever run. */
  lemma {:induction false} PromptHandOffsAreBounded(c: Config, initialSeconds: real, events: seq<Event>)
    requires forall k :: 0 <= k < |events| && events[k].Arrive? ==>
      Run(c, Initial(initialSeconds), events[..k]).handed == []
    ensures Polite(c, Initial(initialSeconds), events)
    ensures Run(c, Initial(initialSeconds), events).inFlight <= c.maxInFlight
    decreases |events|
  {
    if events != [] {
      var n := |events| - 1;
      forall k | 0 <= k < n && events[..n][k].Arrive?
        ensures Run(c, Initial(initialSeconds), events[..n][..k]).handed == []
      {
        assert events[..n][..k] == events[..k];
      }
      PromptHandOffsAreBounded(c, initialSeconds, events[..n]);
    }
    LimitHolds(c, initialSeconds, events);
  }

  const ONE := Config(1, 1)

  const SECONDS := 2.0

  function Of(events: seq<Event>): State {
    Run(ONE, Initial(SECONDS), events)
  }

  /** The requests in flight that started while a waiter had been handed its slot and not resumed:
      that waiter's continuation is queued before theirs, so they cannot finish before it. */
  function Fresh(events: seq<Event>): nat {
    if events == [] then 0 else
      var before := events[..|events| - 1];
      if Of(events).handed == [] then 0
      else Fresh(before) + if Of(events).started > Of(before).started then 1 else 0
  }

  /** No request finishes before a waiter that was handed a slot before it started has resumed. */
  ghost predicate Orderly(events: seq<Event>) {
    events != [] ==>
      var before := events[..|events| - 1];
      Orderly(before) && (events[|events| - 1].Finish? ==> Fresh(before) < Of(before).inFlight)
  }

  /** A run, with what matters of where it got to. */
  ghost predicate Reaches(events: seq<Event>, inFlight: nat, waiting: nat, handed: nat) {
    var s := Of(events);
    s.inFlight == inFlight && |s.waiting| == waiting && |s.handed| == handed && Orderly(events)
  }

  lemma FreshMore(events: seq<Event>, e: Event)
    ensures Of(events + [e]) == Step(ONE, Of(events), e)
    ensures Fresh(events + [e]) == if Step(ONE, Of(events), e).handed == [] then 0
      else Fresh(events) + if Step(ONE, Of(events), e).started > Of(events).started then 1 else 0
    ensures Orderly(events + [e]) <==> Orderly(events) && (e.Finish? ==> Fresh(events) < Of(events).inFlight)
  {
    assert (events + [e])[..|events|] == events;
  }

  /** One of those in flight finishes and its slot is handed over, and an arrival takes the place
      in the queue. */
  lemma FinishAndRefill(events: seq<Event>, n: nat, j: nat) returns (longer: seq<Event>)
    requires n > 1 && Reaches(events, n, 1, j) && Fresh(events) == 0
    ensures Reaches(longer, n - 1, 1, j + 1) && Fresh(longer) == 0
  {
    FreshMore(events, Finish(SECONDS));
    FreshMore(events + [Finish(SECONDS)], Arrive(0));
    longer := events + [Finish(SECONDS)] + [Arrive(0)];
  }

  /** All but one of `n` in flight finish before anyone resumes. */
  lemma {:induction false} FinishAllButOne(events: seq<Event>, n: nat, j: nat) returns (longer: seq<Event>)
    requires n > 0 && Reaches(events, n, 1, j) && Fresh(events) == 0
    ensures Reaches(longer, 1, 1, j + n - 1) && Fresh(longer) == 0
    decreases n
  {
    if n == 1 {
      longer := events;
    } else {
      var shorter := FinishAndRefill(events, n, j);
      longer := FinishAllButOne(shorter, n - 1, j + 1);
    }
  }

  /** The last one finishes too, and newcomers take the slot and the place that are free. */
  lemma FinishAndBarge(events: seq<Event>, j: nat) returns (longer: seq<Event>)
    requires Reaches(events, 1, 1, j) && Fresh(events) == 0
    ensures Reaches(longer, 1, 1, j + 1)
  {
    FreshMore(events, Finish(SECONDS));
    FreshMore(events + [Finish(SECONDS)], Arrive(0));
    FreshMore(events + [Finish(SECONDS)] + [Arrive(0)], Arrive(0));
    longer := events + [Finish(SECONDS)] + [Arrive(0)] + [Arrive(0)];
  }

  lemma {:induction false} ResumeAll(events: seq<Event>, n: nat, j: nat) returns (longer: seq<Event>)
    requires j > 0 && Reaches(events, n, 1, j)
    ensures Reaches(longer, n + j, 1, 0) && Fresh(longer) == 0
    decreases j
  {
    FreshMore(events, Resume);
    longer := events + [Resume];
    if j > 1 { longer := ResumeAll(longer, n + 1, j - 1); }
  }

  /** One slot and one place to wait. Of `n` in flight all finish within one hand-off, while
      arrivals keep the queue filled; one arrival takes the slot then free, and all resume. */
  lemma {:induction false} BargingPilesUp(n: nat) returns (events: seq<Event>)
    requires n > 0
    ensures Reaches(events, n, 1, 0) && Fresh(events) == 0
  {
    if n == 1 {
      FreshMore([], Arrive(0));
      FreshMore([] + [Arrive(0)], Arrive(1));
      events := [] + [Arrive(0)] + [Arrive(1)];
    } else {
      var before := BargingPilesUp(n - 1);
      var drained := FinishAllButOne(before, n - 1, 0);
      var barged := FinishAndBarge(drained, n - 2);
      events := ResumeAll(barged, 1, n - 1);
    }
  }

  /** If arrivals may come between a hand-off and its resumption, nothing bounds the work in
      flight: with a single slot any number can run at once, though every waiter resumes before
      those that started after its hand-off finish. */
  lemma OvershootIsUnbounded(n: nat)
    ensures exists events :: Orderly(events) && Of(events).inFlight > n
  {
    var events := BargingPilesUp(n + 1);
    assert Orderly(events) && Of(events).inFlight > n;
  }

  // ----- the estimate -----

  ghost predicate DurationsIn(events: seq<Event>, lo: real, hi: real) {
    forall k :: 0 <= k < |events| && events[k].Finish? ==> lo <= events[k].seconds <= hi
  }

  /** The mean never leaves the range of its initial value and the durations it has seen. */
  lemma {:induction false} MeanStaysInRange(c: Config, initialSeconds: real, events: seq<Event>, lo: real, hi: real)
    requires lo <= initialSeconds <= hi && DurationsIn(events, lo, hi)
    ensures lo <= Run(c, Initial(initialSeconds), events).meanSeconds <= hi
    decreases |events|
  {
    if events != [] {
      MeanStaysInRange(c, initialSeconds, events[..|events| - 1], lo, hi);
    }
  }

  /** An ending moves the mean three tenths of the way to its duration; nothing else moves it. */
  lemma EndingMovesTheMean(c: Config, s: State, e: Event)
    ensures Step(c, s, e).meanSeconds - s.meanSeconds
         == if e.Finish? && s.inFlight > 0 then (e.seconds - s.meanSeconds) * 3.0 / 10.0 else 0.0
  {
  }

  /** What is left of the past after `n` endings. */
  function Share(n: nat): real {
    if n == 0 then 1.0 else Share(n - 1) * 7.0 / 10.0
  }

  /** The same gate but for its mean. */
  predicate SameButMean(s: State, t: State) {
    t == s.(meanSeconds := t.meanSeconds)
  }

  /** Recent behaviour dominates: of two gates that differ in their mean alone and see the same events, the
      means draw together by three tenths with every ending. */
  lemma {:induction false} MeansDrawTogether(c: Config, s: State, t: State, events: seq<Event>)
    requires SameButMean(s, t)
    ensures var s', t' := Run(c, s, events), Run(c, t, events);
      && SameButMean(s', t') && s'.finished >= s.finished
      && t'.meanSeconds - s'.meanSeconds == (t.meanSeconds - s.meanSeconds) * Share(s'.finished - s.finished)
    decreases |events|
  {
    hide Step;
    if events == [] {
      assert (t.meanSeconds - s.meanSeconds) * Share(0) == t.meanSeconds - s.meanSeconds;
    } else {
      var before, e := events[..|events| - 1], events[|events| - 1];
      MeansDrawTogether(c, s, t, before);
      StepDrawsTogether(c, Run(c, s, before), Run(c, t, before), e);
      OneMoreShare(t.meanSeconds - s.meanSeconds, Run(c, s, before).finished - s.finished);
    }
  }

  lemma OneMoreShare(x: real, n: nat)
    ensures x * Share(n + 1) == x * Share(n) * 7.0 / 10.0
  {
    Scaled(x, Share(n));
  }

  lemma Scaled(x: real, y: real)
    ensures x * (y * 7.0 / 10.0) == x * y * 7.0 / 10.0
  {
  }

  lemma StepDrawsTogether(c: Config, s: State, t: State, e: Event)
    requires SameButMean(s, t)
    ensures var s', t', d := Step(c, s, e), Step(c, t, e), t.meanSeconds - s.meanSeconds;
      && SameButMean(s', t')
      && s'.finished == s.finished + (if e.Finish? && s.inFlight > 0 then 1 else 0)
      && t'.meanSeconds - s'.meanSeconds == if e.Finish? && s.inFlight > 0 then d * 7.0 / 10.0 else d
  {
  }

  // ----- the code -----

  class SynthesisGate {
    const config: Config
    var inFlight: nat
    var waiting: seq<Request>
    var meanSeconds: real
    /** Waiters handed a slot and not resumed, and the history of the gate. */
    var handed: seq<Request>
    ghost var queued: seq<Request>
    ghost var resumed: seq<Request>
    ghost var started: nat
    ghost var finished: nat

    ghost function Now(): State
      reads this
    {
      State(inFlight, waiting, handed, meanSeconds, queued, resumed, started, finished)
    }

    ghost predicate Valid()
      reads this
    {
      config.maxInFlight > 0 && Inv(config, Now())
    }

    constructor (config: Config, initialSeconds: real)
      requires config.maxInFlight > 0
      ensures Valid() && this.config == config && Now() == Initial(initialSeconds)
    {
      this.config := config;
      inFlight, waiting, meanSeconds, handed := 0, [], initialSeconds, [];
      queued, resumed, started, finished := [], [], 0, 0;
    }

    /** Whole seconds an arrival would wait, at least one. */
    method EstimatedWaitSeconds() returns (seconds: int)
      requires Valid()
      ensures seconds >= 1
      ensures var ahead := Max(0, inFlight - config.maxInFlight) + |waiting| + 1;
        var wait := ahead as real / config.maxInFlight as real * meanSeconds;
        seconds as real >= wait && (seconds > 1 ==> (seconds - 1) as real < wait)
    {
      var ahead := Max(0, inFlight - config.maxInFlight) + |waiting| + 1;
      var wait := ahead as real / config.maxInFlight as real * meanSeconds;
      seconds := Max(1, -((-wait).Floor));
    }

    /** `run`, up to its first await; a refusal carries the wait to honour. */
    method Arrive(request: Request) returns (retryAfterSeconds: Option<int>)
      requires Valid()
      modifies this
      ensures Valid() && Now() == Step(config, old(Now()), Event.Arrive(request))
      ensures retryAfterSeconds.Some? <==> old(inFlight) >= config.maxInFlight && |old(waiting)| >= config.maxQueued
    {
      StepKeeps(config, Now(), Event.Arrive(request));
      retryAfterSeconds := None;
      if inFlight >= config.maxInFlight {
        if |waiting| >= config.maxQueued {
          var seconds := EstimatedWaitSeconds();
          return Some(seconds);
        }
        waiting := waiting + [request];
        queued := queued + [request];
        return;
      }
      inFlight := inFlight + 1;
      started := started + 1;
    }

    /** A waiter whose promise was resolved takes its slot. */
    method Resume() returns (request: Request)
      requires Valid() && handed != []
      modifies this
      ensures Valid() && Now() == Step(config, old(Now()), Event.Resume) && request == old(handed)[0]
    {
      StepKeeps(config, Now(), Event.Resume);
      request := handed[0];
      handed := handed[1..];
      resumed := resumed + [request];
      inFlight := inFlight + 1;
      started := started + 1;
    }

    /** The `finally` of `run`: however the work ended, its slot goes to the longest waiter. */
    method Finish(seconds: real)
      requires Valid() && inFlight > 0
      modifies this
      ensures Valid() && Now() == Step(config, old(Now()), Event.Finish(seconds))
    {
      StepKeeps(config, Now(), Event.Finish(seconds));
      meanSeconds := Mean(meanSeconds, seconds);
      inFlight := inFlight - 1;
      finished := finished + 1;
      if waiting != [] {
        handed := handed + [waiting[0]];
        waiting := waiting[1..];
      }
    }
  }
}
