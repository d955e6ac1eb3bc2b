/** Double-talk scoring (platforms/macos-audio/aec-measure.ts): each cue claims the first
    free detection inside its window. With cues ordered by end this is a maximum matching. */
module BargeInScoring {
  import opened Prelude

  datatype Cue = Cue(startMs: real, endMs: real)

  datatype Score = Score(detected: nat, missed: int, falseBargeIns: int, latenciesMs: seq<real>)

  /** How far before and after a cue a detection still counts. */
  datatype Slack = Slack(earlyMs: real, lateMs: real)

  predicate InWindow(cue: Cue, value: real, slack: Slack) {
    cue.startMs - slack.earlyMs <= value <= cue.endMs + slack.lateMs
  }

  // ----- matchings of cues to detections -----

  /** For each cue, the position of the detection credited to it, if any. */
  type Matching = seq<Option<nat>>

  ghost predicate IsMatching(m: Matching, cues: seq<Cue>, detections: seq<real>, slack: Slack) {
    && |m| == |cues|
    && (forall i :: 0 <= i < |m| && m[i].Some? ==>
          m[i].value < |detections| && InWindow(cues[i], detections[m[i].value], slack))
    && (forall i, j :: 0 <= i < j < |m| && m[i].Some? ==> m[i] != m[j])
  }

  function Size(m: Matching): nat {
    if m == [] then 0 else Size(m[..|m| - 1]) + if m[|m| - 1].Some? then 1 else 0
  }

  function Claimed(m: Matching): set<nat> {
    set i | 0 <= i < |m| && m[i].Some? :: m[i].value
  }

  /** The detection the loop picks for a cue: the first free one inside the window. */
  ghost predicate IsFirstFree(pick: Option<nat>, cue: Cue, claimed: set<nat>, detections: seq<real>, slack: Slack) {
    match pick
    case Some(p) =>
      && p < |detections| && p !in claimed && InWindow(cue, detections[p], slack)
      && forall q :: 0 <= q < p ==> q in claimed || !InWindow(cue, detections[q], slack)
    case None =>
      forall q :: 0 <= q < |detections| ==> q in claimed || !InWindow(cue, detections[q], slack)
  }

  /** `m` is what the loop builds: every cue took the first detection its predecessors left free. */
  ghost predicate IsGreedy(m: Matching, cues: seq<Cue>, detections: seq<real>, slack: Slack) {
    m == [] ||
    var n := |m| - 1;
    n < |cues| && IsGreedy(m[..n], cues, detections, slack)
    && IsFirstFree(m[n], cues[n], Claimed(m[..n]), detections, slack)
  }

  lemma {:induction false} GreedyAt(m: Matching, i: nat, cues: seq<Cue>, detections: seq<real>, slack: Slack)
    requires IsGreedy(m, cues, detections, slack) && i < |m|
    ensures i < |cues| && IsFirstFree(m[i], cues[i], Claimed(m[..i]), detections, slack)
    decreases |m|
  {
    var n := |m| - 1;
    if i < n {
      GreedyAt(m[..n], i, cues, detections, slack);
      assert m[..n][..i] == m[..i];
    }
  }

  /** In the cue's own times: what the loop credits lies from `earlyMs` before the cue's start to
      `lateMs` after its end, and nothing is credited only when all that does was claimed before. */
  lemma CreditedInTime(m: Matching, i: nat, cues: seq<Cue>, detections: seq<real>, slack: Slack)
    requires IsGreedy(m, cues, detections, slack) && i < |m|
    ensures i < |cues|
    ensures m[i].Some? ==>
      var p := m[i].value;
      && p < |detections| && cues[i].startMs - slack.earlyMs <= detections[p] <= cues[i].endMs + slack.lateMs
      && p !in Claimed(m[..i])
    ensures m[i].None? <==>
      forall p ::
        0 <= p < |detections| && cues[i].startMs - slack.earlyMs <= detections[p] <= cues[i].endMs + slack.lateMs ==>
        p in Claimed(m[..i])
  {
    GreedyAt(m, i, cues, detections, slack);
  }

  ghost predicate CuesEndInOrder(cues: seq<Cue>) {
    forall i, j :: 0 <= i < j < |cues| ==> cues[i].endMs <= cues[j].endMs
  }

  ghost predicate Ascending(detections: seq<real>) {
    forall i, j :: 0 <= i < j < |detections| ==> detections[i] <= detections[j]
  }

  // ----- the exchange argument -----

  lemma {:induction false} SizeOfUpdate(m: Matching, i: nat, v: Option<nat>)
    requires i < |m|
    ensures Size(m[i := v]) + (if m[i].Some? then 1 else 0) == Size(m) + if v.Some? then 1 else 0
    decreases |m|
  {
    var n := |m| - 1;
    if i < n {
      SizeOfUpdate(m[..n], i, v);
      assert m[i := v][..n] == m[..n][i := v];
    } else {
      assert m[i := v][..n] == m[..n];
    }
  }

  /** Any matching that agrees with the loop's choices on the first `k` cues can be changed,
      without losing a pair, to agree on the first `k + 1`. */
  lemma Exchange(m: Matching, greedy: Matching, k: nat, cues: seq<Cue>, detections: seq<real>, slack: Slack)
    returns (m': Matching)
    requires CuesEndInOrder(cues) && Ascending(detections)
    requires IsMatching(m, cues, detections, slack) && IsGreedy(greedy, cues, detections, slack)
    requires k < |greedy| == |cues| && m[..k] == greedy[..k]
    ensures IsMatching(m', cues, detections, slack)
    ensures m'[..k + 1] == greedy[..k + 1] && Size(m') >= Size(m)
  {
    var pick := greedy[k];
    GreedyAt(greedy, k, cues, detections, slack);
    if m[k].Some? {
      FreeBeyond(m, k, m[k].value);
      assert pick.Some? && pick.value <= m[k].value;
    }
    if pick.Some? && exists j :: k < j < |m| && m[j] == pick {
      var j :| k < j < |m| && m[j] == pick;
      m' := SwapIn(m, k, j, cues, detections, slack);
    } else {
      m' := m[k := pick];
      SizeOfUpdate(m, k, pick);
      if pick.Some? {
        forall i | 0 <= i < |m| && i != k ensures m[i] != pick {
          assert i < k ==> m[i] == m[..k][i];
        }
      }
    }
    assert m'[..k + 1] == m[..k] + [pick] == greedy[..k + 1];
  }

  /** A position a matching uses at `k` was not claimed before `k`. */
  lemma FreeBeyond(m: Matching, k: nat, p: nat)
    requires k < |m| && m[k] == Some(p)
    requires forall i, j :: 0 <= i < j < |m| && m[i].Some? ==> m[i] != m[j]
    ensures p !in Claimed(m[..k])
  {
  }

  /** Cue `k` takes over the detection of the later cue `j`, which inherits `k`'s old one. */
  lemma SwapIn(m: Matching, k: nat, j: nat, cues: seq<Cue>, detections: seq<real>, slack: Slack)
    returns (m': Matching)
    requires CuesEndInOrder(cues) && Ascending(detections) && IsMatching(m, cues, detections, slack)
    requires k < j < |m| && m[j].Some? && InWindow(cues[k], detections[m[j].value], slack)
    requires m[k].Some? ==> m[j].value <= m[k].value
    ensures m' == m[k := m[j]][j := m[k]]
    ensures IsMatching(m', cues, detections, slack) && Size(m') == Size(m)
  {
    m' := m[k := m[j]][j := m[k]];
    SizeOfUpdate(m, k, m[j]);
    SizeOfUpdate(m[k := m[j]], j, m[k]);
    if m[k].Some? {
      assert m[j].value < m[k].value;
      assert InWindow(cues[j], detections[m[k].value], slack);
    }
  }

  lemma {:induction false} GreedyIsMatching(m: Matching, cues: seq<Cue>, detections: seq<real>, slack: Slack)
    requires IsGreedy(m, cues, detections, slack) && |m| == |cues|
    ensures IsMatching(m, cues, detections, slack)
  {
    forall i, j | 0 <= i < j < |m| && m[i].Some? ensures m[i] != m[j] {
      GreedyAt(m, j, cues, detections, slack);
      assert m[..j][i] == m[i] && m[i].value in Claimed(m[..j]);
    }
    forall i | 0 <= i < |m| && m[i].Some?
      ensures m[i].value < |detections| && InWindow(cues[i], detections[m[i].value], slack)
    {
      GreedyAt(m, i, cues, detections, slack);
    }
  }

  lemma {:induction false} NoLargerAgreeing(m: Matching, greedy: Matching, k: nat, cues: seq<Cue>,
                                            detections: seq<real>, slack: Slack)
    requires CuesEndInOrder(cues) && Ascending(detections)
    requires IsMatching(m, cues, detections, slack) && IsGreedy(greedy, cues, detections, slack)
    requires k <= |greedy| == |cues| && m[..k] == greedy[..k]
    ensures Size(m) <= Size(greedy)
    decreases |cues| - k
  {
    if k < |cues| {
      var m' := Exchange(m, greedy, k, cues, detections, slack);
      NoLargerAgreeing(m', greedy, k + 1, cues, detections, slack);
    } else {
      assert m == m[..k] && greedy == greedy[..k];
    }
  }

  /** No assignment of in-window detections to cues credits more cues than the loop does. */
  lemma GreedyIsMaximum(m: Matching, greedy: Matching, cues: seq<Cue>, detections: seq<real>, slack: Slack)
    requires CuesEndInOrder(cues) && Ascending(detections)
    requires IsMatching(m, cues, detections, slack)
    requires IsGreedy(greedy, cues, detections, slack) && |greedy| == |cues|
    ensures Size(m) <= Size(greedy)
  {
    NoLargerAgreeing(m, greedy, 0, cues, detections, slack);
  }

  /** Cues out of end order: the wide cue takes the only detection the narrow one could use. */
  lemma OrderIsNeeded()
    ensures exists cues, detections, slack, m: Matching, greedy: Matching ::
      && Ascending(detections) && IsMatching(m, cues, detections, slack)
      && |greedy| == |cues| && IsGreedy(greedy, cues, detections, slack) && Size(greedy) < Size(m)
  {
    var cues := [Cue(0.0, 100.0), Cue(0.0, 10.0)];
    var detections := [5.0, 50.0];
    var slack := Slack(0.0, 0.0);
    var m: Matching, greedy: Matching := [Some(1), Some(0)], [Some(0), None];
    var first: Matching := [Some(0)];
    assert first[..0] == [] && IsGreedy(first, cues, detections, slack);
    assert first[0] == Some(0) && 0 in Claimed(first);
    assert greedy[..1] == first && IsGreedy(greedy, cues, detections, slack);
    assert m[..1] == [Some(1)] && m[..1][..0] == [];
    assert IsMatching(m, cues, detections, slack);
    assert Size(m) == 2 && Size(greedy) == 1;
  }

  // ----- the code -----

  method FirstFree(cue: Cue, claimed: set<nat>, detections: seq<real>, slack: Slack) returns (pick: Option<nat>)
    ensures IsFirstFree(pick, cue, claimed, detections, slack)
  {
    for position := 0 to |detections|
      invariant forall q :: 0 <= q < position ==> q in claimed || !InWindow(cue, detections[q], slack)
    {
      if position !in claimed && InWindow(cue, detections[position], slack) {
        return Some(position);
      }
    }
    pick := None;
  }

  /** The latencies of the credited cues, in cue order. */
  function Latencies(m: Matching, cues: seq<Cue>, detections: seq<real>): seq<real>
    requires |m| <= |cues|
  {
    if m == [] then [] else
      var n := |m| - 1;
      Latencies(m[..n], cues, detections) +
      if m[n].Some? && m[n].value < |detections| then [detections[m[n].value] - cues[n].startMs] else []
  }

  /** One latency for each credited cue, in order: the time from the cue's start to its detection. */
  lemma {:induction false} LatencyOf(m: Matching, i: nat, cues: seq<Cue>, detections: seq<real>)
    requires |m| <= |cues| && i < |m| && m[i].Some?
    requires forall j :: 0 <= j < |m| && m[j].Some? ==> m[j].value < |detections|
    ensures |Latencies(m, cues, detections)| == Size(m)
    ensures Size(m[..i]) < Size(m)
    ensures Latencies(m, cues, detections)[Size(m[..i])] == detections[m[i].value] - cues[i].startMs
    decreases |m|
  {
    var n := |m| - 1;
    LatenciesAreAsMany(m, cues, detections);
    LatenciesAreAsMany(m[..n], cues, detections);
    if i < n {
      LatencyOf(m[..n], i, cues, detections);
      assert m[..n][..i] == m[..i];
    }
  }

  lemma {:induction false} LatenciesAreAsMany(m: Matching, cues: seq<Cue>, detections: seq<real>)
    requires |m| <= |cues|
    requires forall j :: 0 <= j < |m| && m[j].Some? ==> m[j].value < |detections|
    ensures |Latencies(m, cues, detections)| == Size(m)
    decreases |m|
  {
    if m != [] { LatenciesAreAsMany(m[..|m| - 1], cues, detections); }
  }

  lemma ClaimedOfAppend(m: Matching, pick: Option<nat>)
    ensures Claimed(m + [pick]) == Claimed(m) + if pick.Some? then {pick.value} else {}
  {
    var longer := m + [pick];
    forall p | p in Claimed(m) ensures p in Claimed(longer) {
      var i :| 0 <= i < |m| && m[i] == Some(p);
      assert longer[i] == Some(p);
    }
    if pick.Some? {
      assert longer[|m|] == pick;
    }
  }

  /** Nothing is credited twice or outside its window, and no other assignment misses fewer
      cues or leaves fewer detections unexplained. */
  ghost predicate BestPossible(score: Score, cues: seq<Cue>, detections: seq<real>, slack: Slack) {
    forall other | IsMatching(other, cues, detections, slack) ::
      score.missed <= |cues| - Size(other) && score.falseBargeIns <= |detections| - Size(other)
  }

  /** The loop's state once `m` records the choices so far. */
  ghost predicate Progress(m: Matching, claimed: set<nat>, latenciesMs: seq<real>,
                           cues: seq<Cue>, detections: seq<real>, slack: Slack) {
    && IsGreedy(m, cues, detections, slack)
    && claimed == Claimed(m) && |claimed| == Size(m)
    && |m| <= |cues| && latenciesMs == Latencies(m, cues, detections)
  }

  lemma {:induction false} CountsOfAppend(m: Matching, pick: Option<nat>, cues: seq<Cue>, detections: seq<real>)
    requires |m| < |cues| && (pick.Some? ==> pick.value < |detections|)
    ensures Size(m + [pick]) == Size(m) + if pick.Some? then 1 else 0
    ensures Latencies(m + [pick], cues, detections) == Latencies(m, cues, detections) +
      if pick.Some? then [detections[pick.value] - cues[|m|].startMs] else []
  {
    assert (m + [pick])[..|m|] == m;
  }

  lemma {:induction false} ProgressStep(m: Matching, claimed: set<nat>, latenciesMs: seq<real>, pick: Option<nat>,
                     cues: seq<Cue>, detections: seq<real>, slack: Slack)
    requires |m| < |cues| && Progress(m, claimed, latenciesMs, cues, detections, slack)
    requires IsFirstFree(pick, cues[|m|], claimed, detections, slack)
    ensures pick.None? ==> Progress(m + [pick], claimed, latenciesMs, cues, detections, slack)
    ensures pick.Some? ==>
      && pick.value < |detections|
      && Progress(m + [pick], claimed + {pick.value},
                  latenciesMs + [detections[pick.value] - cues[|m|].startMs], cues, detections, slack)
  {
    assert (m + [pick])[..|m|] == m;
    ClaimedOfAppend(m, pick);
    CountsOfAppend(m, pick, cues, detections);
  }

  lemma ScoreIsBest(score: Score, m: Matching, cues: seq<Cue>, detections: seq<real>, slack: Slack)
    requires IsGreedy(m, cues, detections, slack) && |m| == |cues|
    requires score.missed == |cues| - Size(m) && score.falseBargeIns == |detections| - Size(m)
    ensures CuesEndInOrder(cues) && Ascending(detections) ==> BestPossible(score, cues, detections, slack)
  {
    if CuesEndInOrder(cues) && Ascending(detections) {
      forall other | IsMatching(other, cues, detections, slack) ensures Size(other) <= Size(m) {
        GreedyIsMaximum(other, m, cues, detections, slack);
      }
    }
  }

  method ScoreDoubleTalk(cues: seq<Cue>, detections: seq<real>, slack: Slack)
    returns (score: Score, matching: Matching)
    ensures IsMatching(matching, cues, detections, slack) && IsGreedy(matching, cues, detections, slack)
    ensures score.detected == Size(matching)
    ensures score.missed == |cues| - score.detected && score.falseBargeIns == |detections| - score.detected
    ensures score.latenciesMs == Latencies(matching, cues, detections)
    ensures CuesEndInOrder(cues) && Ascending(detections) ==> BestPossible(score, cues, detections, slack)
  {
    var claimed: set<nat> := {};
    var latenciesMs := [];
    matching := [];
    for i := 0 to |cues|
      invariant |matching| == i && Progress(matching, claimed, latenciesMs, cues, detections, slack)
    {
      var pick := FirstFree(cues[i], claimed, detections, slack);
      ProgressStep(matching, claimed, latenciesMs, pick, cues, detections, slack);
      if pick.Some? {
        latenciesMs := latenciesMs + [detections[pick.value] - cues[i].startMs];
        claimed := claimed + {pick.value};
        matching := matching + [pick];
        assert Progress(matching, claimed, latenciesMs, cues, detections, slack);
      } else {
        matching := matching + [pick];
      }
    }
    score := Score(|claimed|, |cues| - |claimed|, |detections| - |claimed|, latenciesMs);
    GreedyIsMatching(matching, cues, detections, slack);
    ScoreIsBest(score, matching, cues, detections, slack);
  }

  /** The cue timeline of a double-talk run: one cue per trial, after its tone. */
  method CueTimeline(trials: nat, toneMs: real, leadInMs: real, speakMs: real, gapMs: real) returns (cues: seq<Cue>)
    requires toneMs >= 0.0 && speakMs >= 0.0 && gapMs >= 0.0
    ensures |cues| == trials && CuesEndInOrder(cues)
    ensures forall i :: 0 <= i < trials ==> cues[i].endMs - cues[i].startMs == speakMs
    ensures forall i :: 0 < i < trials ==> cues[i].startMs - cues[i - 1].endMs == gapMs + toneMs
    ensures trials > 0 ==> cues[0].startMs == leadInMs + toneMs
  {
    cues := [];
    var cursorMs := leadInMs;
    for trial := 0 to trials
      invariant |cues| == trial && CuesEndInOrder(cues)
      invariant if trial > 0 then cursorMs == cues[trial - 1].endMs + gapMs else cursorMs == leadInMs
      invariant trial > 0 ==> cues[0].startMs == leadInMs + toneMs
      invariant forall i :: 0 <= i < trial ==> cues[i].endMs - cues[i].startMs == speakMs
      invariant forall i :: 0 < i < trial ==> cues[i].startMs - cues[i - 1].endMs == gapMs + toneMs
    {
      cues := cues + [Cue(cursorMs + toneMs, cursorMs + toneMs + speakMs)];
      cursorMs := cursorMs + toneMs + speakMs + gapMs;
    }
  }
}
