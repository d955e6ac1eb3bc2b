/** Splitting text into chunks of bounded speech (tools/voxkit.py): the chunks are the text,
    each fits its ramped budget, and no Latin or digit run is split. */
module Chunking {
  import opened Prelude
  import opened SpeechRates

  const SENTENCE_ENDERS := "。！？；!?;.\U{37E}।॥؟۔។៕။"
  const CLAUSE_BREAKS := "，、,：:；;—–…،؛၊"
  const CLOSERS := "\"'”’)）」』】》»"
  const JOINERS := "\U{200C}\U{200D}"
  const CJK_CUT_AFTER := "的了着过地得吧吗呢啊呀嘛哦嗯"
  const CJK_CUT_BEFORE := "是在和与或但而就都也还又只更把被让从向对给为于跟同"
  const SPAN_TOLERANCE := 0.000000001

  /** Latin letters and decimal digits: the characters whose runs are not to be split. */
  predicate IsRunChar(u: Unicode, ch: char) {
    || u.category(ch) == DecimalDigit
    || (&& u.category(ch) == Letter
        && var o := ch as int;
           0x41 <= o <= 0x5A || 0x61 <= o <= 0x7A || 0xC0 <= o <= 0x24F || 0x1E00 <= o <= 0x1EFF)
  }

  /** Punctuation, whitespace and joiners are not run characters. */
  ghost predicate PunctuationBreaksRuns(u: Unicode, enders: string) {
    && (forall ch :: ch in enders || ch in CLOSERS || ch in CLAUSE_BREAKS || ch in JOINERS ==> !IsRunChar(u, ch))
    && (forall ch :: u.isSpace(ch) ==> !IsRunChar(u, ch))
  }

  /** The code's own punctuation lies outside the Latin letter ranges, so it can only be in a
      run if the Unicode database calls it a digit. */
  lemma DefaultPunctuation(u: Unicode)
    requires forall ch ::
      (ch in SENTENCE_ENDERS || ch in CLOSERS || ch in CLAUSE_BREAKS || ch in JOINERS || u.isSpace(ch) ==>
        u.category(ch) != DecimalDigit && (u.isSpace(ch) ==> u.category(ch) != Letter))
    ensures PunctuationBreaksRuns(u, SENTENCE_ENDERS)
  {
    forall ch | ch in SENTENCE_ENDERS || ch in CLOSERS || ch in CLAUSE_BREAKS || ch in JOINERS
      ensures !IsRunChar(u, ch)
    {
      var o := ch as int;
      assert o < 0x41 || 0x5A < o < 0x61 || 0x7A < o < 0xC0 || 0x24F < o < 0x1E00 || 0x1EFF < o;
    }
  }

  /** Position `i` separates two characters of one run. */
  predicate SplitsRun(u: Unicode, text: string, i: int) {
    0 < i < |text| && IsRunChar(u, text[i]) && IsRunChar(u, text[i - 1])
  }

  /** Position `i` separates a character from its mark, or follows a joiner. */
  predicate SplitsCluster(u: Unicode, text: string, i: nat) {
    0 < i < |text| && (u.category(text[i]) == Mark || text[i - 1] in JOINERS)
  }

  /** The characters that join what stands on either side: ZWNJ and ZWJ. */
  predicate IsJoiner(ch: char)
    ensures IsJoiner(ch) <==> ch in JOINERS
  {
    assert JOINERS == ['\U{200C}', '\U{200D}'];
    ch == '\U{200C}' || ch == '\U{200D}'
  }

  ghost predicate AllRun(u: Unicode, text: string, a: nat, b: nat)
    requires b <= |text|
  {
    forall k :: a <= k < b ==> IsRunChar(u, text[k])
  }

  /** A chunk `a..b` may end inside a run only if it lies wholly inside that run. */
  ghost predicate CleanSeam(u: Unicode, text: string, a: nat, b: nat)
    requires b <= |text|
  {
    !SplitsRun(u, text, b) || AllRun(u, text, a, b)
  }

  // ----- sentence bounds -----

  datatype Bound = Bound(start: nat, end: nat)

  /** The bounds cover `0..n` in order, and each ends after an ender or a closer, or at the end. */
  ghost predicate Tiles(bounds: seq<Bound>, n: nat, text: string, enders: string)
    requires n <= |text|
  {
    if bounds == [] then n == 0 else
      var last := bounds[|bounds| - 1];
      && last.end == n && last.start <= last.end
      && Tiles(bounds[..|bounds| - 1], last.start, text, enders)
      && (n == |text| || (n > 0 && (text[n - 1] in enders || text[n - 1] in CLOSERS)))
  }

  /** A character that ends a sentence: an ender, and a period only where it closes one. */
  predicate IsTerminator(u: Unicode, text: string, enders: string, i: nat)
    requires i < |text|
  {
    text[i] in enders && (text[i] != '.' || u.periodEnds(text, i))
  }

  function Terminators(u: Unicode, text: string, enders: string, n: nat): seq<nat>
    requires n <= |text|
  {
    if n == 0 then [] else
      Terminators(u, text, enders, n - 1) + if IsTerminator(u, text, enders, n - 1) then [n - 1] else []
  }

  /** `end` is where the closers from `i` on stop. */
  ghost predicate IsCloserEnd(text: string, i: nat, end: nat) {
    && i <= end <= |text|
    && (forall k :: i <= k < end ==> text[k] in CLOSERS)
    && (end == |text| || text[end] !in CLOSERS)
  }

  /** One bound ends after each terminator and its closers, in order. */
  ghost predicate EndsAre(bounds: seq<Bound>, ends: seq<nat>, text: string) {
    |bounds| == |ends| && forall k :: 0 <= k < |ends| ==> IsCloserEnd(text, ends[k] + 1, bounds[k].end)
  }

  /** The sentences: one for each terminator, and one for what is left after the last. */
  ghost predicate IsSentences(bounds: seq<Bound>, u: Unicode, text: string, enders: string) {
    var ends := Terminators(u, text, enders, |text|);
    && Tiles(bounds, |text|, text, enders)
    && (EndsAre(bounds, ends, text)
        || (bounds != [] && bounds[|bounds| - 1].start < |text| && EndsAre(bounds[..|bounds| - 1], ends, text)))
  }

  method SkipClosers(text: string, i: nat) returns (end: nat)
    requires i <= |text|
    ensures IsCloserEnd(text, i, end)
  {
    end := i;
    while end < |text| && text[end] in CLOSERS
      invariant i <= end <= |text|
      invariant forall k :: i <= k < end ==> text[k] in CLOSERS
    {
      end := end + 1;
    }
  }

  lemma AddSentence(bounds: seq<Bound>, start: nat, end: nat, text: string, enders: string)
    requires start <= end <= |text| && Tiles(bounds, start, text, enders)
    requires end == |text| || (end > 0 && (text[end - 1] in enders || text[end - 1] in CLOSERS))
    ensures Tiles(bounds + [Bound(start, end)], end, text, enders)
  {
    assert (bounds + [Bound(start, end)])[..|bounds|] == bounds;
  }

  lemma EndsExtend(bounds: seq<Bound>, bound: Bound, ends: seq<nat>, i: nat, text: string)
    requires EndsAre(bounds, ends, text) && IsCloserEnd(text, i + 1, bound.end)
    ensures EndsAre(bounds + [bound], ends + [i], text)
  {
  }

  /** The scan has passed `i` characters, and the sentence being read starts at `start`. */
  ghost predicate Scanned(bounds: seq<Bound>, start: nat, i: nat, u: Unicode, text: string, enders: string) {
    && i <= |text| && start <= |text| && Tiles(bounds, start, text, enders)
    && EndsAre(bounds, Terminators(u, text, enders, i), text)
    && (i < start ==> IsCloserEnd(text, i, start))
  }

  lemma TerminatorScanned(bounds: seq<Bound>, start: nat, i: nat, end: nat, u: Unicode, text: string, enders: string)
    requires i < |text| && Scanned(bounds, start, i, u, text, enders)
    requires IsTerminator(u, text, enders, i) && IsCloserEnd(text, i + 1, end)
    ensures end <= |text| && Scanned(bounds + [Bound(start, end)], end, i + 1, u, text, enders)
  {
    assert i < start ==> end == start;
    assert text[end - 1] in enders || text[end - 1] in CLOSERS;
    AddSentence(bounds, start, end, text, enders);
    EndsExtend(bounds, Bound(start, end), Terminators(u, text, enders, i), i, text);
  }

  lemma NothingScanned(u: Unicode, text: string, enders: string)
    ensures Scanned([], 0, 0, u, text, enders)
  {
  }

  lemma OtherScanned(bounds: seq<Bound>, start: nat, i: nat, u: Unicode, text: string, enders: string)
    requires i < |text| && Scanned(bounds, start, i, u, text, enders) && !IsTerminator(u, text, enders, i)
    ensures Scanned(bounds, start, i + 1, u, text, enders)
  {
  }

  lemma AllScanned(bounds: seq<Bound>, start: nat, u: Unicode, text: string, enders: string)
    requires Scanned(bounds, start, |text|, u, text, enders)
    ensures start == |text| ==> IsSentences(bounds, u, text, enders)
  {
  }

  lemma LastSentence(bounds: seq<Bound>, start: nat, u: Unicode, text: string, enders: string)
    requires Scanned(bounds, start, |text|, u, text, enders) && start < |text|
    ensures IsSentences(bounds + [Bound(start, |text|)], u, text, enders)
  {
    AddSentence(bounds, start, |text|, text, enders);
    assert (bounds + [Bound(start, |text|)])[..|bounds|] == bounds;
  }

  method SentenceBounds(u: Unicode, text: string, enders: string) returns (bounds: seq<Bound>)
    ensures IsSentences(bounds, u, text, enders)
  {
    hide Scanned, IsSentences, IsCloserEnd;
    bounds := [];
    var start := 0;
    NothingScanned(u, text, enders);
    for i := 0 to |text|
      invariant start <= |text| && Scanned(bounds, start, i, u, text, enders)
    {
      if text[i] in enders && (text[i] != '.' || u.periodEnds(text, i)) {
        var end := SkipClosers(text, i + 1);
        TerminatorScanned(bounds, start, i, end, u, text, enders);
        bounds := bounds + [Bound(start, end)];
        start := end;
      } else {
        OtherScanned(bounds, start, i, u, text, enders);
      }
    }
    AllScanned(bounds, start, u, text, enders);
    if start < |text| {
      LastSentence(bounds, start, u, text, enders);
      bounds := bounds + [Bound(start, |text|)];
    }
  }

  // ----- where to cut inside a sentence -----

  /** `i` is where backing off from `at` stops: the latest position that splits no cluster. */
  ghost predicate IsBackedOff(u: Unicode, text: string, pos: nat, at: nat, i: nat) {
    && pos <= i <= at && !(pos < i && SplitsCluster(u, text, i))
    && forall k :: i < k <= at ==> SplitsCluster(u, text, k)
  }

  /** `r` is where the run around `i` begins, looking no further back than `pos`. */
  ghost predicate IsRunStart(u: Unicode, text: string, pos: nat, i: nat, r: nat)
    requires i < |text|
  {
    pos <= r <= i && AllRun(u, text, r, i + 1) && (r == pos || !IsRunChar(u, text[r - 1]))
  }

  /** Back off to a cluster's edge, then to the start of a run unless that is the whole window. */
  ghost predicate IsSafeCut(u: Unicode, text: string, pos: nat, at: nat, cut: nat)
    requires at <= |text|
  {
    exists i: nat :: IsBackedOff(u, text, pos, at, i) &&
      if pos < i && SplitsRun(u, text, i)
      then exists r: nat :: IsRunStart(u, text, pos, i, r) && cut == (if r > pos then r else i)
      else cut == Max(pos + 1, i)
  }

  method SafeCut(u: Unicode, text: string, pos: nat, at: nat) returns (cut: nat)
    requires pos < at <= |text|
    ensures IsSafeCut(u, text, pos, at, cut)
    ensures pos < cut <= at
    ensures forall k :: cut < k <= at ==> SplitsCluster(u, text, k) || SplitsRun(u, text, k)
    ensures (forall ch :: ch in JOINERS ==> !IsRunChar(u, ch)) ==> CleanSeam(u, text, pos, cut)
  {
    var i := at;
    while pos < i < |text| && SplitsCluster(u, text, i)
      invariant pos <= i <= at
      invariant forall k :: i < k <= at ==> SplitsCluster(u, text, k)
      decreases i
    {
      i := i - 1;
    }
    assert IsBackedOff(u, text, pos, at, i);
    if pos < i && SplitsRun(u, text, i) {
      var runStart := i;
      while runStart > pos && IsRunChar(u, text[runStart - 1])
        invariant pos <= runStart <= i
        invariant AllRun(u, text, runStart, i + 1)
      {
        runStart := runStart - 1;
      }
      assert IsRunStart(u, text, pos, i, runStart);
      if runStart > pos {
        i := runStart;
      }
    }
    cut := if pos + 1 < i then i else pos + 1;
  }

  /** In terms of the characters: a cut behind the first character never parts a mark from its base, and
      parts what a joiner joins only to move to a run's start; whatever lies between it and the
      place asked for would. */
  lemma SafeCutSpares(u: Unicode, text: string, pos: nat, at: nat, cut: nat)
    requires pos < at <= |text| && IsSafeCut(u, text, pos, at, cut)
    ensures pos + 1 < cut < |text| ==>
      u.category(text[cut]) != Mark && (IsJoiner(text[cut - 1]) ==> cut < at && IsRunChar(u, text[cut]))
    ensures forall k :: cut < k <= at && k < |text| ==>
      u.category(text[k]) == Mark || IsJoiner(text[k - 1]) || SplitsRun(u, text, k)
  {
    var i: nat :| IsBackedOff(u, text, pos, at, i) &&
      if pos < i && SplitsRun(u, text, i)
      then exists r: nat :: IsRunStart(u, text, pos, i, r) && cut == (if r > pos then r else i)
      else cut == Max(pos + 1, i);
    assert cut <= i || cut == pos + 1;
    if pos < i && SplitsRun(u, text, i) {
      var r: nat :| IsRunStart(u, text, pos, i, r) && cut == (if r > pos then r else i);
      assert IsRunChar(u, text[i - 1]) && IsRunChar(u, text[r]);
    }
    forall k | cut < k <= at && k < |text|
      ensures u.category(text[k]) == Mark || IsJoiner(text[k - 1]) || SplitsRun(u, text, k)
    {
      if k > i {
        assert SplitsCluster(u, text, k);
      } else {
        assert IsRunChar(u, text[k - 1]) && IsRunChar(u, text[k]);
      }
    }
  }

  /** The three kinds of clean break, best first. */
  predicate AfterClause(text: string, i: int) {
    0 < i <= |text| && text[i - 1] in CLAUSE_BREAKS
  }

  predicate AfterSpace(u: Unicode, text: string, i: int) {
    0 < i <= |text| && u.isSpace(text[i - 1])
  }

  predicate AtPhrase(u: Unicode, text: string, i: int) {
    && 0 < i < |text| && !SplitsRun(u, text, i)
    && (text[i - 1] in CJK_CUT_AFTER || text[i] in CJK_CUT_BEFORE)
  }

  /** `i` is the latest position of the window `floor..hi` where `p` holds. */
  ghost predicate IsLatest(p: int -> bool, i: nat, floor: nat, hi: nat) {
    floor < i <= hi && p(i) && forall k :: i < k <= hi ==> !p(k)
  }

  ghost predicate Nowhere(p: int -> bool, floor: nat, hi: nat) {
    forall k :: floor < k <= hi ==> !p(k)
  }

  method Latest(p: int -> bool, floor: nat, hi: nat) returns (found: Option<nat>)
    ensures found.Some? ==> IsLatest(p, found.value, floor, hi)
    ensures found.None? ==> Nowhere(p, floor, hi)
  {
    var i: int := hi;
    while floor < i
      invariant i <= hi
      invariant forall k :: i < k <= hi ==> !p(k)
    {
      if p(i) {
        return Some(i);
      }
      i := i - 1;
    }
    found := None;
  }

  /** `cut` is the break for a window that ends at `hi`: the latest one of the best kind present,
      and failing all three the safe cut. */
  ghost predicate IsBreak(u: Unicode, text: string, pos: nat, hi: nat, cut: nat)
    requires hi <= |text|
  {
    var clause, space, phrase := i => AfterClause(text, i), i => AfterSpace(u, text, i), i => AtPhrase(u, text, i);
    && pos < cut <= hi
    && (|| IsLatest(clause, cut, pos + 1, hi)
        || (Nowhere(clause, pos + 1, hi) && IsLatest(space, cut + 1, pos + 1, hi))
        || (Nowhere(clause, pos + 1, hi) && Nowhere(space, pos + 1, hi) && IsLatest(phrase, cut, pos + 1, hi))
        || (&& Nowhere(clause, pos + 1, hi) && Nowhere(space, pos + 1, hi) && Nowhere(phrase, pos + 1, hi)
            && IsSafeCut(u, text, pos, hi, cut)))
  }

  method BreakIndex(u: Unicode, text: string, pos: nat, hi: nat) returns (cut: nat)
    requires pos < hi < |text|
    ensures IsBreak(u, text, pos, hi, cut)
    ensures PunctuationBreaksRuns(u, []) ==> CleanSeam(u, text, pos, cut)
  {
    var clause := Latest(i => AfterClause(text, i), pos + 1, hi);
    if clause.Some? {
      return clause.value;
    }
    var space := Latest(i => AfterSpace(u, text, i), pos + 1, hi);
    if space.Some? {
      return space.value - 1;
    }
    var phrase := Latest(i => AtPhrase(u, text, i), pos + 1, hi);
    if phrase.Some? {
      return phrase.value;
    }
    cut := SafeCut(u, text, pos, hi);
  }

  /** `bisect_right` over `prefix[lo..hi]`. */
  method BisectRight(prefix: seq<real>, x: real, lo: nat, hi: nat) returns (at: nat)
    requires lo <= hi <= |prefix| && Increasing(prefix)
    ensures lo <= at <= hi
    ensures forall k :: lo <= k < at ==> prefix[k] <= x
    ensures forall k :: at <= k < hi ==> x < prefix[k]
  {
    at := lo;
    var above := hi;
    while at < above
      invariant lo <= at <= above <= hi
      invariant forall k :: lo <= k < at ==> prefix[k] <= x
      invariant forall k :: above <= k < hi ==> x < prefix[k]
    {
      var mid := (at + above) / 2;
      if x < prefix[mid] {
        above := mid;
      } else {
        at := mid + 1;
      }
    }
  }

  predicate Exceeds(span: real, cap: real) {
    span > cap * (1.0 + SPAN_TOLERANCE)
  }

  function Span(prefix: seq<real>, a: nat, b: nat): real
    requires a < |prefix| && b < |prefix|
  {
    prefix[b] - prefix[a]
  }

  ghost predicate Fits(prefix: seq<real>, a: nat, b: nat, cap: real)
    requires a < |prefix| && b < |prefix|
  {
    !Exceeds(Span(prefix, a, b), cap) || b == a + 1
  }

  /** From `pos` on `hi` is as far as the cap reaches, and a single character is always reached. */
  ghost predicate IsLongestFit(prefix: seq<real>, pos: nat, end: nat, cap: real, hi: nat)
    requires end < |prefix|
  {
    && pos < hi <= end && Fits(prefix, pos, hi, cap)
    && forall k :: hi < k <= end ==> Exceeds(Span(prefix, pos, k), cap)
  }

  /** `cut` is the end if the cap reaches it, and else the break of the longest prefix that fits. */
  ghost predicate IsCut(u: Unicode, text: string, prefix: seq<real>, pos: nat, end: nat, cap: real, cut: nat)
    requires end < |prefix| && end <= |text|
  {
    exists hi :: IsLongestFit(prefix, pos, end, cap, hi)
      && if hi == end then cut == end else IsBreak(u, text, pos, hi, cut)
  }

  method CutIndex(u: Unicode, text: string, prefix: seq<real>, pos: nat, end: nat, cap: real) returns (cut: nat)
    requires pos < end <= |text| && |prefix| == |text| + 1 && Increasing(prefix)
    ensures IsCut(u, text, prefix, pos, end, cap, cut)
    ensures pos < cut <= end && Fits(prefix, pos, cut, cap)
    ensures cut == end || (PunctuationBreaksRuns(u, []) ==> CleanSeam(u, text, pos, cut))
  {
    var longest := BisectRight(prefix, prefix[pos] + cap * (1.0 + SPAN_TOLERANCE), pos, end + 1);
    var hi := longest as int - 1;
    hi := if hi < pos + 1 then pos + 1 else hi;
    hi := if end < hi then end else hi;
    assert forall k :: pos < k <= hi ==> Fits(prefix, pos, k, cap);
    assert IsLongestFit(prefix, pos, end, cap, hi);
    if hi >= end {
      return end;
    }
    cut := BreakIndex(u, text, pos, hi);
  }

  // ----- packing -----

  datatype Budget = Budget(maxSeconds: real, firstMaxSeconds: Option<real>, growth: real) {
    /** A missing or zero first cap means the ordinary one. */
    function FirstCap(): real {
      if firstMaxSeconds.None? || firstMaxSeconds.value == 0.0 then maxSeconds
      else MinReal(firstMaxSeconds.value, maxSeconds)
    }
  }

  /** What the next chunk may cost, when the last one cost `previous`. */
  function Limit(budget: Budget, first: bool, previous: real): real {
    if first then budget.FirstCap() else MinReal(budget.maxSeconds, budget.growth * previous)
  }

  /** Where the last of `chunks` began, if they end at `upTo`. */
  function LastStart(chunks: seq<string>, upTo: nat): int {
    if chunks == [] then upTo else upTo - |chunks[|chunks| - 1]|
  }

  /** What the chunk `a..b` may cost, after `chunks`. */
  ghost function LimitAfter(chunks: seq<string>, upTo: nat, prefix: seq<real>, budget: Budget): real
    requires 0 <= LastStart(chunks, upTo) && upTo < |prefix|
  {
    Limit(budget, chunks == [], Span(prefix, LastStart(chunks, upTo), upTo))
  }

  /** `chunks` cut up `text[..upTo]`: non-empty, in order, each within the budget its
      predecessor leaves. */
  ghost predicate Packed(chunks: seq<string>, upTo: nat, text: string, prefix: seq<real>, budget: Budget) {
    && upTo <= |text| && |prefix| == |text| + 1
    && if chunks == [] then upTo == 0 else
         var before, from := chunks[..|chunks| - 1], LastStart(chunks, upTo);
         && 0 <= from < upTo && text[from..upTo] == chunks[|chunks| - 1]
         && Packed(before, from, text, prefix, budget)
         && 0 <= LastStart(before, from) && Fits(prefix, from, upTo, LimitAfter(before, from, prefix, budget))
  }

  /** What chunk `k` may cost: the first its own cap, if one is given, and each later one no more than
      `growth` times what the one before it cost; none more than the budget. */
  ghost predicate CostsAtMost(cap: real, k: nat, previous: real, budget: Budget) {
    && cap <= budget.maxSeconds
    && (k == 0 && budget.firstMaxSeconds.Some? && budget.firstMaxSeconds.value != 0.0 ==>
          cap == MinReal(budget.firstMaxSeconds.value, budget.maxSeconds))
    && (k == 0 && (budget.firstMaxSeconds.None? || budget.firstMaxSeconds.value == 0.0) ==> cap == budget.maxSeconds)
    && (k > 0 ==> cap == MinReal(budget.growth * previous, budget.maxSeconds))
  }

  /** Chunk `k` is the text from `a` to `b`, behind the chunk from `before` to `a`, and costs no more than
      its cap by a billionth, unless it is a single character. */
  lemma {:induction false} ChunkCosts(chunks: seq<string>, upTo: nat, text: string, prefix: seq<real>, budget: Budget,
                                      k: nat)
    returns (before: nat, a: nat, b: nat, cap: real)
    requires Packed(chunks, upTo, text, prefix, budget) && k < |chunks|
    ensures before <= a < b <= upTo && b < |prefix| && text[a..b] == chunks[k]
    ensures k > 0 ==> text[before..a] == chunks[k - 1]
    ensures CostsAtMost(cap, k, prefix[a] - prefix[before], budget)
    ensures prefix[b] - prefix[a] <= cap * 1.000000001 || b == a + 1
    decreases |chunks|
  {
    var shorter, from := chunks[..|chunks| - 1], LastStart(chunks, upTo);
    if k < |shorter| {
      before, a, b, cap := ChunkCosts(shorter, from, text, prefix, budget, k);
    } else {
      before, a, b := LastStart(shorter, from), from, upTo;
      cap := LimitAfter(shorter, from, prefix, budget);
    }
  }

  /** Every chunk ends at a clean seam. */
  ghost predicate SeamsClean(chunks: seq<string>, upTo: nat, u: Unicode, text: string) {
    && upTo <= |text|
    && (chunks != [] ==>
          var from := LastStart(chunks, upTo);
          0 <= from && CleanSeam(u, text, from, upTo) && SeamsClean(chunks[..|chunks| - 1], from, u, text))
  }

  /** The chunk stops before sentence `j`, which would not fit in with it. */
  ghost predicate StopsBefore(j: nat, from: nat, upTo: nat, cap: real, text: string, prefix: seq<real>,
                              bounds: seq<Bound>)
    requires |prefix| == |text| + 1
  {
    && j < |bounds| && bounds[j].start == upTo < bounds[j].end <= |text| && from < |prefix|
    && Exceeds(Span(prefix, from, bounds[j].end), cap)
  }

  /** The chunk is cut out of sentence `j`, which is too long. */
  ghost predicate CutFrom(j: nat, from: nat, upTo: nat, cap: real, u: Unicode, text: string, prefix: seq<real>,
                          bounds: seq<Bound>)
    requires |prefix| == |text| + 1
  {
    && j < |bounds| && bounds[j].start <= from < bounds[j].end <= |text|
    && Exceeds(Span(prefix, from, bounds[j].end), cap)
    && IsCut(u, text, prefix, from, bounds[j].end, cap, upTo)
  }

  /** Why the chunk `from..upTo` ends where it does: it reaches the end of the text, or the next
      sentence does not fit in with it, or its sentence is too long and is cut there. */
  ghost predicate EndsWithCause(from: nat, upTo: nat, cap: real, u: Unicode, text: string, prefix: seq<real>,
                                bounds: seq<Bound>)
    requires |prefix| == |text| + 1
  {
    || upTo == |text|
    || (exists j: nat :: StopsBefore(j, from, upTo, cap, text, prefix, bounds))
    || (exists j: nat :: CutFrom(j, from, upTo, cap, u, text, prefix, bounds))
  }

  /** No chunk ends before it has to. */
  ghost predicate Greedy(chunks: seq<string>, upTo: nat, u: Unicode, text: string, prefix: seq<real>,
                         budget: Budget, bounds: seq<Bound>) {
    && upTo <= |text| && |prefix| == |text| + 1
    && (chunks != [] ==>
          var before, from := chunks[..|chunks| - 1], LastStart(chunks, upTo);
          && 0 <= from <= |text| && 0 <= LastStart(before, from)
          && EndsWithCause(from, upTo, LimitAfter(before, from, prefix, budget), u, text, prefix, bounds)
          && Greedy(before, from, u, text, prefix, budget, bounds))
  }

  function Concat(chunks: seq<string>): string {
    if chunks == [] then [] else Concat(chunks[..|chunks| - 1]) + chunks[|chunks| - 1]
  }

  /** Packed chunks lose nothing. */
  lemma {:induction false} PackedIsLossless(chunks: seq<string>, upTo: nat, text: string, prefix: seq<real>,
                                            budget: Budget)
    requires Packed(chunks, upTo, text, prefix, budget)
    ensures Concat(chunks) == text[..upTo]
    decreases |chunks|
  {
    if chunks != [] {
      var from := LastStart(chunks, upTo);
      PackedIsLossless(chunks[..|chunks| - 1], from, text, prefix, budget);
      Join(text, from, upTo);
    }
  }

  lemma Join(text: string, a: nat, b: nat)
    requires a <= b <= |text|
    ensures text[..a] + text[a..b] == text[..b]
  {
  }

  lemma {:induction false} PackedHasNoEmptyChunk(chunks: seq<string>, upTo: nat, k: nat, text: string,
                                                 prefix: seq<real>,
                                                 budget: Budget)
    requires Packed(chunks, upTo, text, prefix, budget) && k < |chunks|
    ensures chunks[k] != []
    decreases |chunks|
  {
    if k < |chunks| - 1 {
      PackedHasNoEmptyChunk(chunks[..|chunks| - 1], LastStart(chunks, upTo), k, text, prefix, budget);
    }
  }

  /** The packer's state: what was emitted covers `0..upTo`, and `previous` is the duration of
      the last chunk. Clean seams rest on the assumption about punctuation. */
  ghost predicate Emitted(chunks: seq<string>, upTo: nat, previous: real,
                          u: Unicode, text: string, prefix: seq<real>, budget: Budget, bounds: seq<Bound>,
                          clean: bool) {
    && Greedy(chunks, upTo, u, text, prefix, budget, bounds)
    && Packed(chunks, upTo, text, prefix, budget) && 0 <= LastStart(chunks, upTo)
    && (chunks != [] ==> previous == Span(prefix, LastStart(chunks, upTo), upTo))
    && (clean ==> SeamsClean(chunks, upTo, u, text))
  }

  lemma {:induction false} Emit(chunks: seq<string>, a: nat, b: nat, previous: real,
             u: Unicode, text: string, prefix: seq<real>, budget: Budget, bounds: seq<Bound>, clean: bool)
    requires Emitted(chunks, a, previous, u, text, prefix, budget, bounds, clean) && a < b <= |text|
    requires Fits(prefix, a, b, Limit(budget, chunks == [], previous)) && (clean ==> CleanSeam(u, text, a, b))
    requires EndsWithCause(a, b, Limit(budget, chunks == [], previous), u, text, prefix, bounds)
    ensures Emitted(chunks + [text[a..b]], b, Span(prefix, a, b), u, text, prefix, budget, bounds, clean)
  {
    var longer := chunks + [text[a..b]];
    assert longer[..|longer| - 1] == chunks;
  }

  /** A chunk may be open from `start` on, if what it holds so far fits. */
  ghost predicate Packing(chunks: seq<string>, start: Option<nat>, pos: nat, previous: real,
                          u: Unicode, text: string, prefix: seq<real>, budget: Budget, bounds: seq<Bound>,
                          clean: bool) {
    && pos <= |text| && |prefix| == |text| + 1
    && match start
       case None => Emitted(chunks, pos, previous, u, text, prefix, budget, bounds, clean)
       case Some(from) =>
         && from < pos && Emitted(chunks, from, previous, u, text, prefix, budget, bounds, clean)
         && !Exceeds(Span(prefix, from, pos), Limit(budget, chunks == [], previous))
  }

  /** The open chunk is closed because sentence `k` does not fit in with it. */
  lemma Close(chunks: seq<string>, from: nat, k: nat, previous: real,
              u: Unicode, text: string, prefix: seq<real>, budget: Budget, bounds: seq<Bound>, clean: bool)
    requires k < |bounds| && bounds[k].start < bounds[k].end <= |text|
    requires Packing(chunks, Some(from), bounds[k].start, previous, u, text, prefix, budget, bounds, clean)
    requires Exceeds(Span(prefix, from, bounds[k].end), Limit(budget, chunks == [], previous))
    requires SafeBoundary(u, text, bounds[k].start, clean)
    ensures Emitted(chunks + [text[from..bounds[k].start]], bounds[k].start, Span(prefix, from, bounds[k].start),
                    u, text, prefix, budget, bounds, clean)
  {
    assert StopsBefore(k, from, bounds[k].start, Limit(budget, chunks == [], previous), text, prefix, bounds);
    Emit(chunks, from, bounds[k].start, previous, u, text, prefix, budget, bounds, clean);
  }

  /** Sentence `k`, which is too long from `pos` on, loses its next part as a chunk. */
  method CutOff(chunks: seq<string>, pos: nat, k: nat, previous: real,
                u: Unicode, text: string, prefix: seq<real>, budget: Budget, bounds: seq<Bound>, ghost clean: bool)
    returns (cut: nat)
    requires k < |bounds| && bounds[k].start <= pos < bounds[k].end <= |text| && |prefix| == |text| + 1
      && Increasing(prefix)
    requires Packing(chunks, None, pos, previous, u, text, prefix, budget, bounds, clean)
    requires Exceeds(Span(prefix, pos, bounds[k].end), Limit(budget, chunks == [], previous))
    requires SafeBoundary(u, text, bounds[k].end, clean) && (clean ==> PunctuationBreaksRuns(u, []))
    ensures pos < cut <= bounds[k].end
    ensures Emitted(chunks + [text[pos..cut]], cut, Span(prefix, pos, cut), u, text, prefix, budget, bounds, clean)
  {
    cut := CutIndex(u, text, prefix, pos, bounds[k].end, Limit(budget, chunks == [], previous));
    assert CutFrom(k, pos, cut, Limit(budget, chunks == [], previous), u, text, prefix, bounds);
    Emit(chunks, pos, cut, previous, u, text, prefix, budget, bounds, clean);
  }

  /** Every chunk may end at `pos` without splitting a run. */
  ghost predicate SafeBoundary(u: Unicode, text: string, pos: nat, clean: bool) {
    clean ==> !SplitsRun(u, text, pos)
  }

  /** What is left of sentence `k` from `pos` on rides along with the open chunk, opens one, or
      loses its next part. */
  method PackPart(u: Unicode, text: string, prefix: seq<real>, budget: Budget, bounds: seq<Bound>, k: nat, pos0: nat,
                  chunks0: seq<string>, start0: Option<nat>, previous0: real, ghost clean: bool)
    returns (chunks: seq<string>, start: Option<nat>, pos: nat, previous: real)
    requires |prefix| == |text| + 1 && Increasing(prefix) && k < |bounds|
    requires bounds[k].start <= pos0 < bounds[k].end <= |text| && (start0.Some? ==> pos0 == bounds[k].start)
    requires Packing(chunks0, start0, pos0, previous0, u, text, prefix, budget, bounds, clean)
    requires SafeBoundary(u, text, bounds[k].start, clean) && SafeBoundary(u, text, bounds[k].end, clean)
    requires clean ==> PunctuationBreaksRuns(u, [])
    ensures pos0 <= pos <= bounds[k].end
    ensures Packing(chunks, start, pos, previous, u, text, prefix, budget, bounds, clean)
    ensures pos < bounds[k].end ==> start.None? && (start0.None? ==> pos0 < pos)
  {
    chunks, start, previous, pos := chunks0, start0, previous0, bounds[k].end;
    var limit := Limit(budget, chunks == [], previous);
    if start.Some? {
      if Exceeds(Span(prefix, start.value, pos), limit) {
        Close(chunks, start.value, k, previous, u, text, prefix, budget, bounds, clean);
        chunks, previous := chunks + [text[start.value..pos0]], Span(prefix, start.value, pos0);
        start, pos := None, pos0;
      }
    } else if !Exceeds(Span(prefix, pos0, pos), limit) {
      start := Some(pos0);
    } else {
      pos := CutOff(chunks, pos0, k, previous, u, text, prefix, budget, bounds, clean);
      chunks, previous := chunks + [text[pos0..pos]], Span(prefix, pos0, pos);
    }
  }

  method PackSentence(u: Unicode, text: string, prefix: seq<real>, budget: Budget, bounds: seq<Bound>, k: nat,
                      chunks0: seq<string>, start0: Option<nat>, previous0: real, ghost clean: bool)
    returns (chunks: seq<string>, start: Option<nat>, previous: real)
    requires |prefix| == |text| + 1 && Increasing(prefix) && k < |bounds| && bounds[k].start <= bounds[k].end <= |text|
    requires Packing(chunks0, start0, bounds[k].start, previous0, u, text, prefix, budget, bounds, clean)
    requires SafeBoundary(u, text, bounds[k].start, clean) && SafeBoundary(u, text, bounds[k].end, clean)
    requires clean ==> PunctuationBreaksRuns(u, [])
    ensures Packing(chunks, start, bounds[k].end, previous, u, text, prefix, budget, bounds, clean)
  {
    hide Packing, SafeBoundary, PunctuationBreaksRuns;
    chunks, start, previous := chunks0, start0, previous0;
    var pos := bounds[k].start;
    while pos < bounds[k].end
      invariant bounds[k].start <= pos <= bounds[k].end
      invariant Packing(chunks, start, pos, previous, u, text, prefix, budget, bounds, clean)
      invariant start.Some? && pos < bounds[k].end ==> pos == bounds[k].start
      decreases bounds[k].end - pos, if start.Some? then 1 else 0
    {
      chunks, start, pos, previous :=
        PackPart(u, text, prefix, budget, bounds, k, pos, chunks, start, previous, clean);
    }
  }

  lemma {:induction false} TilesAt(bounds: seq<Bound>, n: nat, k: nat, text: string, enders: string)
    requires n <= |text| && Tiles(bounds, n, text, enders) && k < |bounds|
    ensures bounds[k].start <= bounds[k].end <= n
    ensures bounds[k].start == if k == 0 then 0 else bounds[k - 1].end
    ensures var end := bounds[k].end;
      end == |text| || (end > 0 && (text[end - 1] in enders || text[end - 1] in CLOSERS))
    decreases |bounds|
  {
    var last := |bounds| - 1;
    if k < last {
      TilesAt(bounds[..last], bounds[last].start, k, text, enders);
    }
  }

  /** A sentence ends at the text's end or after punctuation, so no run is split there. */
  lemma EndIsSafe(u: Unicode, bounds: seq<Bound>, k: nat, text: string, enders: string, clean: bool)
    requires Tiles(bounds, |text|, text, enders) && k < |bounds| && (clean ==> PunctuationBreaksRuns(u, enders))
    ensures bounds[k].end <= |text| && SafeBoundary(u, text, bounds[k].end, clean)
  {
    TilesAt(bounds, |text|, k, text, enders);
  }

  lemma TilesEnd(bounds: seq<Bound>, n: nat, text: string, enders: string)
    requires n <= |text| && Tiles(bounds, n, text, enders)
    ensures n == if |bounds| == 0 then 0 else bounds[|bounds| - 1].end
  {
  }

  lemma NothingEmitted(u: Unicode, text: string, prefix: seq<real>, budget: Budget, bounds: seq<Bound>, clean: bool)
    requires |prefix| == |text| + 1
    ensures Emitted([], 0, 0.0, u, text, prefix, budget, bounds, clean) && SafeBoundary(u, text, 0, clean)
  {
  }

  lemma AllEmitted(chunks: seq<string>, previous: real,
                   u: Unicode, text: string, prefix: seq<real>, budget: Budget, bounds: seq<Bound>, clean: bool)
    requires Emitted(chunks, |text|, previous, u, text, prefix, budget, bounds, clean)
    ensures Packed(chunks, |text|, text, prefix, budget) && Greedy(chunks, |text|, u, text, prefix, budget, bounds)
    ensures clean ==> SeamsClean(chunks, |text|, u, text)
  {
  }

  lemma BreaksWithoutEnders(u: Unicode, enders: string)
    ensures PunctuationBreaksRuns(u, enders) ==> PunctuationBreaksRuns(u, [])
  {
  }

  /** The chunk still open at the end of the text. */
  lemma EmitLast(chunks: seq<string>, from: nat, previous: real,
                 u: Unicode, text: string, prefix: seq<real>, budget: Budget, bounds: seq<Bound>, clean: bool)
    requires Packing(chunks, Some(from), |text|, previous, u, text, prefix, budget, bounds, clean)
    ensures Emitted(chunks + [text[from..|text|]], |text|, Span(prefix, from, |text|),
                    u, text, prefix, budget, bounds, clean)
  {
    Emit(chunks, from, |text|, previous, u, text, prefix, budget, bounds, clean);
  }

  method PackSentences(u: Unicode, text: string, prefix: seq<real>, budget: Budget, bounds: seq<Bound>, enders: string)
    returns (chunks: seq<string>)
    requires |prefix| == |text| + 1 && Increasing(prefix) && Tiles(bounds, |text|, text, enders)
    ensures Packed(chunks, |text|, text, prefix, budget)
    ensures Greedy(chunks, |text|, u, text, prefix, budget, bounds)
    ensures PunctuationBreaksRuns(u, enders) ==> SeamsClean(chunks, |text|, u, text)
  {
    hide Packed, Greedy, SeamsClean, Emitted, PunctuationBreaksRuns;
    ghost var clean := PunctuationBreaksRuns(u, enders);
    NothingEmitted(u, text, prefix, budget, bounds, clean);
    BreaksWithoutEnders(u, enders);
    chunks := [];
    var start: Option<nat> := None;
    var previous := 0.0;
    ghost var pos := 0;
    for k := 0 to |bounds|
      invariant pos == (if k == 0 then 0 else bounds[k - 1].end)
      invariant Packing(chunks, start, pos, previous, u, text, prefix, budget, bounds, clean)
      invariant SafeBoundary(u, text, pos, clean)
    {
      TilesAt(bounds, |text|, k, text, enders);
      EndIsSafe(u, bounds, k, text, enders, clean);
      chunks, start, previous := PackSentence(u, text, prefix, budget, bounds, k, chunks, start, previous, clean);
      pos := bounds[k].end;
    }
    TilesEnd(bounds, |text|, text, enders);
    if start.Some? {
      EmitLast(chunks, start.value, previous, u, text, prefix, budget, bounds, clean);
      chunks, previous := chunks + [text[start.value..|text|]], Span(prefix, start.value, |text|);
    }
    AllEmitted(chunks, previous, u, text, prefix, budget, bounds, clean);
  }

  /** The durations the budget is about: the running sums of the per-character estimates. */
  ghost predicate Priced(prefix: seq<real>, u: Unicode, text: string, rates: Rates) {
    exists chars :: IsEstimate(chars, u, text, rates) && IsPrefixSum(prefix, chars)
  }

  method ChunkText(u: Unicode, raw: string, rates: Rates, budget: Budget, enders: string)
    returns (chunks: seq<string>, prefix: seq<real>, bounds: seq<Bound>)
    ensures var text := Normalized(u, raw);
      && Priced(prefix, u, text, rates) && IsSentences(bounds, u, text, enders)
      && Concat(chunks) == text && (forall k :: 0 <= k < |chunks| ==> chunks[k] != [])
      && Packed(chunks, |text|, text, prefix, budget) && Greedy(chunks, |text|, u, text, prefix, budget, bounds)
      && (PunctuationBreaksRuns(u, enders) ==> SeamsClean(chunks, |text|, u, text))
  {
    var text := Normalized(u, raw);
    var chars := EstimateChars(u, text, rates);
    prefix := Accumulate(chars);
    chunks := [];
    bounds := SentenceBounds(u, text, enders);
    if text != [] {
      chunks := PackSentences(u, text, prefix, budget, bounds, enders);
    }
    PackedIsLossless(chunks, |text|, text, prefix, budget);
    forall k | 0 <= k < |chunks| ensures chunks[k] != [] {
      PackedHasNoEmptyChunk(chunks, |text|, k, text, prefix, budget);
    }
    assert text[..|text|] == text;
  }
}
