/** What Chunking.dfy says of the chunks leaves no choice: a text, a rate table and a budget have
    one list of sentences and one list of chunks that meet it. */
module ChunkingUnique {
  import opened Prelude
  import opened SpeechRates
  import opened Chunking

  // ----- sentences -----

  lemma CloserEndIsUnique(text: string, i: nat, a: nat, b: nat)
    requires IsCloserEnd(text, i, a) && IsCloserEnd(text, i, b)
    ensures a == b
  {
  }

  lemma SentencesAreUnique(xs: seq<Bound>, ys: seq<Bound>, u: Unicode, text: string, enders: string)
    requires IsSentences(xs, u, text, enders) && IsSentences(ys, u, text, enders)
    ensures xs == ys
  {
    var ends := Terminators(u, text, enders, |text|);
    SameLength(xs, ys, ends, text, enders);
    forall k | 0 <= k < |xs| ensures xs[k] == ys[k] {
      BoundsAgree(xs, ys, k, ends, text, enders);
    }
  }

  /** The sentences without the one that has no terminator, if there is such a one. */
  ghost predicate Accounted(xs: seq<Bound>, ends: seq<nat>, text: string, enders: string) {
    && Tiles(xs, |text|, text, enders)
    && (EndsAre(xs, ends, text)
        || (xs != [] && xs[|xs| - 1].start < |text| && EndsAre(xs[..|xs| - 1], ends, text)))
  }

  lemma LastEnd(xs: seq<Bound>, ends: seq<nat>, text: string, enders: string)
    requires Accounted(xs, ends, text, enders) && |xs| == |ends| + 1
    ensures ends != [] ==> IsCloserEnd(text, ends[|ends| - 1] + 1, xs[|ends| - 1].end) && xs[|ends| - 1].end < |text|
    ensures text != []
  {
    if ends != [] {
      TilesAt(xs, |text|, |ends|, text, enders);
      assert xs[..|xs| - 1][|ends| - 1] == xs[|ends| - 1];
    }
  }

  lemma SameLength(xs: seq<Bound>, ys: seq<Bound>, ends: seq<nat>, text: string, enders: string)
    requires Accounted(xs, ends, text, enders) && Accounted(ys, ends, text, enders)
    ensures |xs| == |ys|
  {
    if |xs| < |ys| {
      Covered(xs, ends, text, enders);
      LastEnd(ys, ends, text, enders);
    } else if |ys| < |xs| {
      Covered(ys, ends, text, enders);
      LastEnd(xs, ends, text, enders);
    }
  }

  lemma Covered(xs: seq<Bound>, ends: seq<nat>, text: string, enders: string)
    requires Tiles(xs, |text|, text, enders) && EndsAre(xs, ends, text)
    ensures ends != [] ==> xs[|ends| - 1].end == |text|
    ensures ends == [] ==> text == []
  {
  }

  lemma BoundsAgree(xs: seq<Bound>, ys: seq<Bound>, k: nat, ends: seq<nat>, text: string, enders: string)
    requires Accounted(xs, ends, text, enders) && Accounted(ys, ends, text, enders) && k < |xs| == |ys|
    ensures xs[k] == ys[k]
    decreases k
  {
    TilesAt(xs, |text|, k, text, enders);
    TilesAt(ys, |text|, k, text, enders);
    if k > 0 { BoundsAgree(xs, ys, k - 1, ends, text, enders); }
    if k < |ends| {
      assert |xs| > |ends| ==> xs[..|xs| - 1][k] == xs[k] && ys[..|ys| - 1][k] == ys[k];
      CloserEndIsUnique(text, ends[k] + 1, xs[k].end, ys[k].end);
    }
  }

  // ----- one chunk's end -----

  lemma SafeCutIsUnique(u: Unicode, text: string, pos: nat, at: nat, a: nat, b: nat)
    requires pos < at <= |text| && IsSafeCut(u, text, pos, at, a) && IsSafeCut(u, text, pos, at, b)
    ensures a == b
  {
    var i: nat :| IsBackedOff(u, text, pos, at, i) &&
      if pos < i && SplitsRun(u, text, i)
      then exists r: nat :: IsRunStart(u, text, pos, i, r) && a == (if r > pos then r else i)
      else a == Max(pos + 1, i);
    var j: nat :| IsBackedOff(u, text, pos, at, j) &&
      if pos < j && SplitsRun(u, text, j)
      then exists r: nat :: IsRunStart(u, text, pos, j, r) && b == (if r > pos then r else j)
      else b == Max(pos + 1, j);
    BackedOffIsUnique(u, text, pos, at, i, j);
    if pos < i && SplitsRun(u, text, i) {
      var q: nat :| IsRunStart(u, text, pos, i, q) && a == (if q > pos then q else i);
      var r: nat :| IsRunStart(u, text, pos, i, r) && b == (if r > pos then r else i);
      assert q == r;
    }
  }

  lemma BackedOffIsUnique(u: Unicode, text: string, pos: nat, at: nat, i: nat, j: nat)
    requires IsBackedOff(u, text, pos, at, i) && IsBackedOff(u, text, pos, at, j)
    ensures i == j
  {
  }

  lemma BreakIsUnique(u: Unicode, text: string, pos: nat, hi: nat, a: nat, b: nat)
    requires pos < hi <= |text| && IsBreak(u, text, pos, hi, a) && IsBreak(u, text, pos, hi, b)
    ensures a == b
  {
    if IsSafeCut(u, text, pos, hi, a) && IsSafeCut(u, text, pos, hi, b) {
      SafeCutIsUnique(u, text, pos, hi, a, b);
    }
  }

  lemma CutIsUnique(u: Unicode, text: string, prefix: seq<real>, pos: nat, end: nat, cap: real, a: nat, b: nat)
    requires end < |prefix| && end <= |text|
    requires IsCut(u, text, prefix, pos, end, cap, a) && IsCut(u, text, prefix, pos, end, cap, b)
    ensures a == b && pos < a <= end
  {
    var h :| IsLongestFit(prefix, pos, end, cap, h) && if h == end then a == end else IsBreak(u, text, pos, h, a);
    var i :| IsLongestFit(prefix, pos, end, cap, i) && if i == end then b == end else IsBreak(u, text, pos, i, b);
    assert h == i;
    if h != end { BreakIsUnique(u, text, pos, h, a, b); }
  }

  /** Longer spans cost more. */
  lemma SpansGrow(prefix: seq<real>, from: nat, a: nat, b: nat, cap: real)
    requires Increasing(prefix) && from < |prefix| && a <= b < |prefix| && Exceeds(Span(prefix, from, a), cap)
    ensures Exceeds(Span(prefix, from, b), cap)
  {
  }

  lemma Causes(from: nat, upTo: nat, cap: real, u: Unicode, text: string, prefix: seq<real>,
               bounds: seq<Bound>)
    returns (j: nat)
    requires |prefix| == |text| + 1 && EndsWithCause(from, upTo, cap, u, text, prefix, bounds)
    ensures || upTo == |text| || StopsBefore(j, from, upTo, cap, text, prefix, bounds)
            || CutFrom(j, from, upTo, cap, u, text, prefix, bounds)
  {
    j := 0;
    if upTo != |text| {
      if i: nat :| StopsBefore(i, from, upTo, cap, text, prefix, bounds) {
        j := i;
      } else {
        j :| CutFrom(j, from, upTo, cap, u, text, prefix, bounds);
      }
    }
  }

  lemma {:induction false} LaterSentencesStartLater(bounds: seq<Bound>, i: nat, j: nat, text: string, enders: string)
    requires Tiles(bounds, |text|, text, enders) && i < j < |bounds|
    ensures bounds[i].end <= bounds[j].start
    decreases j
  {
    TilesAt(bounds, |text|, j, text, enders);
    TilesAt(bounds, |text|, j - 1, text, enders);
    if i < j - 1 { LaterSentencesStartLater(bounds, i, j - 1, text, enders); }
  }

  /** No chunk fits that goes past a point it exceeds at, unless it is a single character. */
  lemma CannotPass(prefix: seq<real>, from: nat, stop: nat, upTo: nat, cap: real)
    requires Increasing(prefix) && from < stop <= upTo < |prefix|
    requires Exceeds(Span(prefix, from, stop), cap) && Fits(prefix, from, upTo, cap)
    ensures upTo == from + 1 == stop
  {
    SpansGrow(prefix, from, stop, upTo, cap);
  }

  lemma StopsAgree(i: nat, j: nat, from: nat, a: nat, b: nat, cap: real, text: string, prefix: seq<real>,
                   bounds: seq<Bound>, enders: string)
    requires |prefix| == |text| + 1 && Increasing(prefix) && Tiles(bounds, |text|, text, enders)
    requires StopsBefore(i, from, a, cap, text, prefix, bounds) && StopsBefore(j, from, b, cap, text, prefix, bounds)
    requires from < a && from < b && Fits(prefix, from, a, cap) && Fits(prefix, from, b, cap)
    ensures a == b
  {
    if i < j {
      LaterSentencesStartLater(bounds, i, j, text, enders);
      CannotPass(prefix, from, bounds[i].end, b, cap);
    } else if j < i {
      LaterSentencesStartLater(bounds, j, i, text, enders);
      CannotPass(prefix, from, bounds[j].end, a, cap);
    }
  }

  lemma StopAndCutAgree(i: nat, j: nat, from: nat, a: nat, b: nat, cap: real, u: Unicode, text: string,
                        prefix: seq<real>,
                        bounds: seq<Bound>, enders: string)
    requires |prefix| == |text| + 1 && Increasing(prefix) && Tiles(bounds, |text|, text, enders)
    requires StopsBefore(i, from, a, cap, text, prefix, bounds) && CutFrom(j, from, b, cap, u, text, prefix, bounds)
    requires from < a && from < b && Fits(prefix, from, a, cap)
    ensures a == b
  {
    CutIsUnique(u, text, prefix, from, bounds[j].end, cap, b, b);
    if i < j {
      LaterSentencesStartLater(bounds, i, j, text, enders);
    } else if j < i {
      LaterSentencesStartLater(bounds, j, i, text, enders);
      CannotPass(prefix, from, bounds[j].end, a, cap);
    }
  }

  lemma CutsAgree(i: nat, j: nat, from: nat, a: nat, b: nat, cap: real, u: Unicode, text: string, prefix: seq<real>,
                  bounds: seq<Bound>, enders: string)
    requires |prefix| == |text| + 1 && Tiles(bounds, |text|, text, enders)
    requires CutFrom(i, from, a, cap, u, text, prefix, bounds) && CutFrom(j, from, b, cap, u, text, prefix, bounds)
    ensures a == b
  {
    if i < j {
      LaterSentencesStartLater(bounds, i, j, text, enders);
    } else if j < i {
      LaterSentencesStartLater(bounds, j, i, text, enders);
    } else {
      CutIsUnique(u, text, prefix, from, bounds[i].end, cap, a, b);
    }
  }

  /** A chunk that reaches the end of the text is not stopped short by any cause. */
  lemma EndAgrees(j: nat, from: nat, b: nat, cap: real, u: Unicode, text: string, prefix: seq<real>, bounds: seq<Bound>)
    requires |prefix| == |text| + 1 && Increasing(prefix) && from < b <= |text| && Fits(prefix, from, |text|, cap)
    requires StopsBefore(j, from, b, cap, text, prefix, bounds) || CutFrom(j, from, b, cap, u, text, prefix, bounds)
    ensures b == |text|
  {
    CannotPass(prefix, from, bounds[j].end, |text|, cap);
  }

  /** From one start and under one cap there is one place a chunk can end. */
  lemma EndIsUnique(from: nat, a: nat, b: nat, cap: real, u: Unicode, text: string, prefix: seq<real>,
                    bounds: seq<Bound>, enders: string)
    requires |prefix| == |text| + 1 && Increasing(prefix) && Tiles(bounds, |text|, text, enders)
    requires from < a <= |text| && from < b <= |text| && Fits(prefix, from, a, cap) && Fits(prefix, from, b, cap)
    requires EndsWithCause(from, a, cap, u, text, prefix, bounds)
      && EndsWithCause(from, b, cap, u, text, prefix, bounds)
    ensures a == b
  {
    var i := Causes(from, a, cap, u, text, prefix, bounds);
    var j := Causes(from, b, cap, u, text, prefix, bounds);
    if a == |text| || b == |text| {
      if a != |text| { EndAgrees(i, from, a, cap, u, text, prefix, bounds); }
      if b != |text| { EndAgrees(j, from, b, cap, u, text, prefix, bounds); }
    } else if StopsBefore(i, from, a, cap, text, prefix, bounds) {
      if StopsBefore(j, from, b, cap, text, prefix, bounds) {
        StopsAgree(i, j, from, a, b, cap, text, prefix, bounds, enders);
      } else {
        StopAndCutAgree(i, j, from, a, b, cap, u, text, prefix, bounds, enders);
      }
    } else if StopsBefore(j, from, b, cap, text, prefix, bounds) {
      StopAndCutAgree(j, i, from, b, a, cap, u, text, prefix, bounds, enders);
    } else {
      CutsAgree(i, j, from, a, b, cap, u, text, prefix, bounds, enders);
    }
  }

  // ----- all chunks -----

  /** What the chunker promises of the chunks of `text[..upTo]`. */
  ghost predicate Meets(chunks: seq<string>, upTo: nat, u: Unicode, text: string, prefix: seq<real>, budget: Budget,
                        bounds: seq<Bound>) {
    Packed(chunks, upTo, text, prefix, budget) && Greedy(chunks, upTo, u, text, prefix, budget, bounds)
  }

  /** The first `k` chunks meet it too, up to where they end. */
  lemma {:induction false} PrefixMeets(chunks: seq<string>, upTo: nat, k: nat, u: Unicode, text: string,
                                       prefix: seq<real>,
                                       budget: Budget, bounds: seq<Bound>)
    requires Meets(chunks, upTo, u, text, prefix, budget, bounds) && k <= |chunks|
    ensures var end := |Concat(chunks[..k])|;
      end <= upTo && Meets(chunks[..k], end, u, text, prefix, budget, bounds) && (k < |chunks| ==> end < upTo)
    decreases |chunks|
  {
    if k == |chunks| {
      assert chunks[..k] == chunks;
      PackedIsLossless(chunks, upTo, text, prefix, budget);
    } else {
      var before := chunks[..|chunks| - 1];
      PrefixMeets(before, LastStart(chunks, upTo), k, u, text, prefix, budget, bounds);
      assert before[..k] == chunks[..k];
    }
  }

  /** After the same chunks comes the same chunk. */
  lemma NextIsUnique(chunks: seq<string>, x: string, y: string, u: Unicode, text: string, prefix: seq<real>,
                     budget: Budget, bounds: seq<Bound>, enders: string, a: nat, b: nat)
    requires |prefix| == |text| + 1 && Increasing(prefix) && Tiles(bounds, |text|, text, enders)
    requires Meets(chunks + [x], a, u, text, prefix, budget, bounds)
      && Meets(chunks + [y], b, u, text, prefix, budget, bounds)
    ensures x == y
  {
    var from := |Concat(chunks)|;
    assert (chunks + [x])[..|chunks|] == chunks && (chunks + [y])[..|chunks|] == chunks;
    PackedIsLossless(chunks, LastStart(chunks + [x], a), text, prefix, budget);
    PackedIsLossless(chunks, LastStart(chunks + [y], b), text, prefix, budget);
    EndIsUnique(from, a, b, LimitAfter(chunks, from, prefix, budget), u, text, prefix, bounds, enders);
  }

  lemma LastOfPrefixIsUnique(xs: seq<string>, ys: seq<string>, k: nat, u: Unicode, text: string, prefix: seq<real>,
                             budget: Budget, bounds: seq<Bound>, enders: string, a: nat, b: nat)
    requires |prefix| == |text| + 1 && Increasing(prefix) && Tiles(bounds, |text|, text, enders)
    requires 0 < k <= |xs| && k <= |ys| && xs[..k - 1] == ys[..k - 1]
    requires Meets(xs[..k], a, u, text, prefix, budget, bounds) && Meets(ys[..k], b, u, text, prefix, budget, bounds)
    ensures xs[..k] == ys[..k]
  {
    assert xs[..k] == xs[..k - 1] + [xs[k - 1]];
    assert ys[..k] == xs[..k - 1] + [ys[k - 1]];
    NextIsUnique(xs[..k - 1], xs[k - 1], ys[k - 1], u, text, prefix, budget, bounds, enders, a, b);
  }

  lemma {:induction false} FirstChunksAgree(xs: seq<string>, ys: seq<string>, k: nat, u: Unicode, text: string,
                                            prefix: seq<real>,
                                            budget: Budget, bounds: seq<Bound>, enders: string)
    requires |prefix| == |text| + 1 && Increasing(prefix) && Tiles(bounds, |text|, text, enders)
    requires Meets(xs, |text|, u, text, prefix, budget, bounds) && Meets(ys, |text|, u, text, prefix, budget, bounds)
    requires k <= |xs| && k <= |ys|
    ensures xs[..k] == ys[..k]
    decreases k
  {
    if k > 0 {
      FirstChunksAgree(xs, ys, k - 1, u, text, prefix, budget, bounds, enders);
      PrefixMeets(xs, |text|, k, u, text, prefix, budget, bounds);
      PrefixMeets(ys, |text|, k, u, text, prefix, budget, bounds);
      LastOfPrefixIsUnique(xs, ys, k, u, text, prefix, budget, bounds, enders, |Concat(xs[..k])|, |Concat(ys[..k])|);
    }
  }

  /** For a text, its durations and a budget there is exactly one list of chunks that fit, lose
      nothing and end only where they must. */
  lemma ChunksAreUnique(xs: seq<string>, ys: seq<string>, u: Unicode, text: string, prefix: seq<real>,
                        budget: Budget, bounds: seq<Bound>, enders: string)
    requires |prefix| == |text| + 1 && Increasing(prefix) && Tiles(bounds, |text|, text, enders)
    requires Meets(xs, |text|, u, text, prefix, budget, bounds) && Meets(ys, |text|, u, text, prefix, budget, bounds)
    ensures xs == ys
  {
    var k := if |xs| < |ys| then |xs| else |ys|;
    FirstChunksAgree(xs, ys, k, u, text, prefix, budget, bounds, enders);
    PrefixMeets(xs, |text|, k, u, text, prefix, budget, bounds);
    PrefixMeets(ys, |text|, k, u, text, prefix, budget, bounds);
    assert xs[..k] == ys[..k];
    PackedIsLossless(xs, |text|, text, prefix, budget);
    PackedIsLossless(ys, |text|, text, prefix, budget);
    assert xs[..|xs|] == xs && ys[..|ys|] == ys;
  }
}
