/** Speech-duration estimates (tools/voxkit.py, tools/measure_speech_rates.py): the one-pass
    per-character estimate, and the per-script counts that must price a text identically. */
module SpeechRates {
  import opened Prelude

  /** A character's Unicode general category, as far as the code looks at it. */
  datatype Category = Letter | Mark | DecimalDigit | Unlettered

  /** The Unicode database and the sentence heuristics, which are data here. */
  datatype Unicode = Unicode(category: char -> Category, isSpace: char -> bool, periodEnds: (string, nat) -> bool)

  datatype Script = Script(name: string, spans: seq<(int, int)>)

  const SCRIPT_RANGES: seq<Script> := [
    Script("Han", [(0x3400, 0x4DBF), (0x4E00, 0x9FFF), (0xF900, 0xFAFF), (0x20000, 0x2FA1F)]),
    Script("Kana", [(0x3040, 0x30FF), (0x31F0, 0x31FF), (0xFF66, 0xFF9D)]),
    Script("Hangul", [(0x1100, 0x11FF), (0x3130, 0x318F), (0xA960, 0xA97F), (0xAC00, 0xD7FF)]),
    Script("Latin", [(0x0041, 0x024F), (0x1E00, 0x1EFF), (0x2C60, 0x2C7F), (0xA720, 0xA7FF), (0xFF21, 0xFF3A),
                     (0xFF41, 0xFF5A)]),
    Script("Cyrillic", [(0x0400, 0x052F), (0x2DE0, 0x2DFF), (0xA640, 0xA69F)]),
    Script("Greek", [(0x0370, 0x03FF), (0x1F00, 0x1FFF)]),
    Script("Arabic", [(0x0600, 0x06FF), (0x0750, 0x077F), (0x08A0, 0x08FF), (0xFB50, 0xFDFF), (0xFE70, 0xFEFF)]),
    Script("Hebrew", [(0x0590, 0x05FF), (0xFB1D, 0xFB4F)]),
    Script("Devanagari", [(0x0900, 0x097F), (0xA8E0, 0xA8FF)]),
    Script("Thai", [(0x0E00, 0x0E7F)]),
    Script("Lao", [(0x0E80, 0x0EFF)]),
    Script("Khmer", [(0x1780, 0x17FF), (0x19E0, 0x19FF)]),
    Script("Myanmar", [(0x1000, 0x109F), (0xA9E0, 0xA9FF), (0xAA60, 0xAA7F)])]

  predicate InSpans(codepoint: int, spans: seq<(int, int)>) {
    exists k :: 0 <= k < |spans| && spans[k].0 <= codepoint <= spans[k].1
  }

  function FirstScript(codepoint: int, scripts: seq<Script>): Option<string> {
    if scripts == [] then None
    else if InSpans(codepoint, scripts[0].spans) then Some(scripts[0].name)
    else FirstScript(codepoint, scripts[1..])
  }

  /** A character's own script; a mark outside the ranges and anything that is no letter has none. */
  function ScriptOf(u: Unicode, ch: char): Option<string> {
    var category := u.category(ch);
    if category != Letter && category != Mark then None
    else
      var named := FirstScript(ch as int, SCRIPT_RANGES);
      if named.Some? then named else if category == Mark then None else Some("Other")
  }

  /** The script found is that of the first range that holds the character. */
  lemma {:induction false} FirstScriptIs(codepoint: int, scripts: seq<Script>)
    ensures var found := FirstScript(codepoint, scripts);
      && (found.None? <==> forall k :: 0 <= k < |scripts| ==> !InSpans(codepoint, scripts[k].spans))
      && (found.Some? ==> exists k ::
            && 0 <= k < |scripts| && InSpans(codepoint, scripts[k].spans) && found.value == scripts[k].name
            && forall j :: 0 <= j < k ==> !InSpans(codepoint, scripts[j].spans))
    decreases |scripts|
  {
    if scripts != [] {
      var rest := scripts[1..];
      FirstScriptIs(codepoint, rest);
      assert forall k :: 0 <= k < |rest| ==> rest[k] == scripts[k + 1];
      if !InSpans(codepoint, scripts[0].spans) && FirstScript(codepoint, rest).Some? {
        var k :| 0 <= k < |rest| && InSpans(codepoint, rest[k].spans)
          && FirstScript(codepoint, rest).value == rest[k].name
          && forall j :: 0 <= j < k ==> !InSpans(codepoint, rest[j].spans);
        assert forall j :: 0 < j < k + 1 ==> scripts[j] == rest[j - 1];
        assert InSpans(codepoint, scripts[k + 1].spans);
      }
    }
  }

  /** Every letter has a script, of its own range or `Other`; a mark has one only inside a range, and nothing
      else has any. */
  lemma WhichHaveScripts(u: Unicode, ch: char)
    ensures var found := exists k :: 0 <= k < |SCRIPT_RANGES| && InSpans(ch as int, SCRIPT_RANGES[k].spans);
      && (ScriptOf(u, ch).Some? <==> u.category(ch) == Letter || (u.category(ch) == Mark && found))
      && (u.category(ch) == Letter && !found ==> ScriptOf(u, ch) == Some("Other"))
  {
    FirstScriptIs(ch as int, SCRIPT_RANGES);
  }

  // ----- rates -----

  /** Characters per second by script. The default is the slowest rate, so the table cannot be empty. */
  type Rates = r: map<string, real> | |r| > 0 && forall s :: s in r ==> r[s] > 0.0 witness map["Latin" := 18.3]

  ghost predicate IsLeast(rate: real, rates: map<string, real>) {
    (exists s :: s in rates && rates[s] == rate) && forall s :: s in rates ==> rate <= rates[s]
  }

  method LeastRate(rates: Rates) returns (least: real)
    ensures IsLeast(least, rates) && least > 0.0
  {
    var slowest :| slowest in rates;
    var todo := rates.Keys - {slowest};
    while todo != {}
      invariant slowest in rates && todo <= rates.Keys
      invariant forall s :: s in rates && s !in todo ==> rates[slowest] <= rates[s]
      decreases |todo|
    {
      var s :| s in todo;
      todo := todo - {s};
      if rates[s] < rates[slowest] {
        slowest := s;
      }
    }
    least := rates[slowest];
  }

  function RateOf(script: Option<string>, rates: Rates, fallback: real): (rate: real)
    requires fallback > 0.0
    ensures rate > 0.0
  {
    if script.Some? && script.value in rates then rates[script.value] else fallback
  }

  function CharSeconds(script: Option<string>, rates: Rates, fallback: real): (seconds: real)
    requires fallback > 0.0
    ensures seconds > 0.0
  {
    1.0 / RateOf(script, rates, fallback)
  }

  // ----- the declarative rule -----

  /** The script of the nearest character at or before `i` that has one. */
  function Preceding(u: Unicode, text: string, i: nat): Option<string>
    requires i < |text|
  {
    if ScriptOf(u, text[i]).Some? then ScriptOf(u, text[i])
    else if i == 0 then None
    else Preceding(u, text, i - 1)
  }

  /** The script of the first character at or after `i` that has one. */
  function Following(u: Unicode, text: string, i: nat): Option<string>
    requires i <= |text|
    decreases |text| - i
  {
    if i == |text| then None
    else if ScriptOf(u, text[i]).Some? then ScriptOf(u, text[i])
    else Following(u, text, i + 1)
  }

  /** The script a character is charged under: the running one, or for a leading character the
      first that turns up. */
  function ChargedScript(u: Unicode, text: string, i: nat): Option<string>
    requires i < |text|
  {
    if Preceding(u, text, i).Some? then Preceding(u, text, i) else Following(u, text, i)
  }

  ghost predicate IsPriced(seconds: seq<real>, u: Unicode, text: string, rates: Rates, fallback: real)
    requires fallback > 0.0
  {
    |seconds| == |text| &&
    forall i {:trigger seconds[i]} :: 0 <= i < |text| ==>
      seconds[i] == CharSeconds(ChargedScript(u, text, i), rates, fallback)
  }

  lemma {:induction false} NothingBefore(u: Unicode, text: string, i: nat, j: nat)
    requires j <= i < |text| && Preceding(u, text, i).None?
    ensures Preceding(u, text, j).None? && Following(u, text, j) == Following(u, text, i + 1)
    decreases i - j
  {
    if j < i {
      NothingBefore(u, text, i, j + 1);
      StillNothing(u, text, i, j);
    }
  }

  lemma {:induction false} StillNothing(u: Unicode, text: string, i: nat, j: nat)
    requires j <= i < |text| && Preceding(u, text, i).None?
    ensures Preceding(u, text, j).None?
    decreases i
  {
    if j < i {
      StillNothing(u, text, i - 1, j);
    }
  }

  lemma {:induction false} NoScriptAnywhere(u: Unicode, text: string, i: nat)
    requires |text| > 0 && Preceding(u, text, |text| - 1).None? && i < |text|
    ensures ChargedScript(u, text, i).None?
  {
    NothingBefore(u, text, |text| - 1, i);
  }

  lemma {:induction false} LeadingTakesFirst(u: Unicode, text: string, i: nat, j: nat)
    requires j < i < |text| && Preceding(u, text, i - 1).None? && ScriptOf(u, text[i]).Some?
    ensures ChargedScript(u, text, j) == ScriptOf(u, text[i])
  {
    NothingBefore(u, text, i - 1, j);
  }

  // ----- the one-pass estimate -----

  /** What the pass has settled after `i` characters: everything, or — while no script has
      turned up — nothing. */
  ghost predicate Settled(seconds: seq<real>, i: nat, unresolved: seq<nat>, current: Option<string>,
                          u: Unicode, text: string, rates: Rates, fallback: real)
    requires fallback > 0.0
  {
    && |seconds| == |text| && i <= |text|
    && current == (if i == 0 then None else Preceding(u, text, i - 1))
    && (current.None? ==> unresolved == seq(i, k requires 0 <= k => k))
    && (current.Some? ==> unresolved == [])
    && (current.Some? ==> forall k {:trigger seconds[k]} :: 0 <= k < i ==>
          seconds[k] == CharSeconds(ChargedScript(u, text, k), rates, fallback))
  }

  /** The per-character estimate: every character at its rate, the slowest one where it has none. */
  ghost predicate IsEstimate(seconds: seq<real>, u: Unicode, text: string, rates: Rates) {
    exists fallback :: IsLeast(fallback, rates) && fallback > 0.0 && IsPriced(seconds, u, text, rates, fallback)
  }

  /** It leaves no choice. */
  lemma EstimateIsUnique(xs: seq<real>, ys: seq<real>, u: Unicode, text: string, rates: Rates)
    requires IsEstimate(xs, u, text, rates) && IsEstimate(ys, u, text, rates)
    ensures xs == ys
  {
    var p :| IsLeast(p, rates) && p > 0.0 && IsPriced(xs, u, text, rates, p);
    var q :| IsLeast(q, rates) && q > 0.0 && IsPriced(ys, u, text, rates, q);
    assert p == q;
  }

  method EstimateChars(u: Unicode, text: string, rates: Rates) returns (seconds: seq<real>)
    ensures IsEstimate(seconds, u, text, rates)
    ensures |seconds| == |text| && forall i :: 0 <= i < |text| ==> seconds[i] > 0.0
  {
    var least := LeastRate(rates);
    seconds := seq(|text|, _ => 0.0);
    var unresolved: seq<nat> := [];
    var current: Option<string> := None;
    for i := 0 to |text|
      invariant Settled(seconds, i, unresolved, current, u, text, rates, least)
    {
      var script := ScriptOf(u, text[i]);
      if script.None? {
        if current.None? {
          unresolved := unresolved + [i];
        } else {
          seconds := seconds[i := CharSeconds(current, rates, least)];
        }
      } else {
        var charge := CharSeconds(script, rates, least);
        if current.None? {
          forall k | 0 <= k < i ensures ChargedScript(u, text, k) == script {
            LeadingTakesFirst(u, text, i, k);
          }
        }
        seconds := Charge(seconds, unresolved, charge);
        unresolved := [];
        current := script;
        seconds := seconds[i := charge];
      }
    }
    if current.None? {
      forall k | 0 <= k < |text| ensures ChargedScript(u, text, k).None? {
        NoScriptAnywhere(u, text, k);
      }
    }
    seconds := Charge(seconds, unresolved, 1.0 / least);
    assert IsPriced(seconds, u, text, rates, least);
  }

  /** Charges every listed position at `charge`. */
  method Charge(seconds: seq<real>, positions: seq<nat>, charge: real) returns (charged: seq<real>)
    requires |positions| <= |seconds| && forall j :: 0 <= j < |positions| ==> positions[j] == j
    ensures |charged| == |seconds|
    ensures forall k :: 0 <= k < |positions| ==> charged[k] == charge
    ensures forall k :: |positions| <= k < |seconds| ==> charged[k] == seconds[k]
  {
    charged := seconds;
    for j := 0 to |positions|
      invariant |charged| == |seconds|
      invariant forall k :: 0 <= k < j ==> charged[k] == charge
      invariant forall k :: j <= k < |seconds| ==> charged[k] == seconds[k]
    {
      charged := charged[positions[j] := charge];
    }
  }

  // ----- prefix sums -----

  function Total(seconds: seq<real>): real {
    if seconds == [] then 0.0 else Total(seconds[..|seconds| - 1]) + seconds[|seconds| - 1]
  }

  /** `prefix[k]` is the duration of the first `k` characters. */
  ghost predicate IsPrefixSum(prefix: seq<real>, seconds: seq<real>) {
    |prefix| == |seconds| + 1 && forall k {:trigger prefix[k]} :: 0 <= k <= |seconds| ==>
      prefix[k] == Total(seconds[..k])
  }

  ghost predicate Increasing(prefix: seq<real>) {
    forall i, j :: 0 <= i < j < |prefix| ==> prefix[i] < prefix[j]
  }

  method Accumulate(seconds: seq<real>) returns (prefix: seq<real>)
    ensures IsPrefixSum(prefix, seconds)
    ensures (forall k :: 0 <= k < |seconds| ==> seconds[k] > 0.0) ==> Increasing(prefix)
  {
    prefix := [0.0];
    for i := 0 to |seconds|
      invariant |prefix| == i + 1
      invariant forall k {:trigger prefix[k]} :: 0 <= k <= i ==> prefix[k] == Total(seconds[..k])
      invariant (forall k :: 0 <= k < |seconds| ==> seconds[k] > 0.0) ==> Increasing(prefix)
    {
      assert seconds[..i + 1][..i] == seconds[..i];
      prefix := prefix + [prefix[i] + seconds[i]];
    }
  }

  // ----- whitespace normalisation -----

  /** `text.split()`: the maximal runs of non-space characters; `word` is the run being read. */
  function Words(u: Unicode, text: string, word: string): seq<string>
    decreases |text|
  {
    if text == [] then (if word == [] then [] else [word])
    else if u.isSpace(text[0]) then (if word == [] then [] else [word]) + Words(u, text[1..], [])
    else Words(u, text[1..], word + [text[0]])
  }

  function Join(words: seq<string>): string {
    if words == [] then [] else if |words| == 1 then words[0] else words[0] + " " + Join(words[1..])
  }

  function Normalized(u: Unicode, text: string): string {
    Join(Words(u, text, []))
  }

  /** The characters of a text that are not whitespace, in order. */
  function Visible(u: Unicode, text: string): string {
    if text == [] then [] else (if u.isSpace(text[0]) then [] else [text[0]]) + Visible(u, text[1..])
  }

  lemma {:induction false} VisibleOfConcat(u: Unicode, a: string, b: string)
    ensures Visible(u, a + b) == Visible(u, a) + Visible(u, b)
    decreases |a|
  {
    if a == [] {
      assert a + b == b;
    } else {
      VisibleOfConcat(u, a[1..], b);
      assert (a + b)[1..] == a[1..] + b;
    }
  }

  lemma {:induction false} VisibleOfJoin(u: Unicode, word: string, words: seq<string>)
    requires u.isSpace(' ')
    ensures Visible(u, Join([word] + words)) == Visible(u, word) + Visible(u, Join(words))
  {
    if words == [] {
      assert [word] + words == [word];
    } else {
      assert ([word] + words)[1..] == words;
      VisibleOfConcat(u, word + " ", Join(words));
      VisibleOfConcat(u, word, " ");
    }
  }

  lemma {:induction false} WordsKeepVisible(u: Unicode, text: string, word: string)
    requires u.isSpace(' ')
    ensures Visible(u, Join(Words(u, text, word))) == Visible(u, word + text)
    decreases |text|
  {
    if text == [] {
      assert word + text == word;
    } else if u.isSpace(text[0]) {
      WordsKeepVisible(u, text[1..], []);
      VisibleOfConcat(u, word, text);
      assert [] + text[1..] == text[1..];
      if word == [] {
        assert [] + Words(u, text[1..], []) == Words(u, text[1..], []);
      } else {
        VisibleOfJoin(u, word, Words(u, text[1..], []));
      }
    } else {
      WordsKeepVisible(u, text[1..], word + [text[0]]);
      assert (word + [text[0]]) + text[1..] == word + text;
    }
  }

  /** Normalising drops whitespace and nothing else. */
  lemma NormalizedKeepsVisible(u: Unicode, text: string)
    requires u.isSpace(' ')
    ensures Visible(u, Normalized(u, text)) == Visible(u, text)
  {
    WordsKeepVisible(u, text, []);
    assert [] + text == text;
  }

  // ----- the estimate, and the counts that must agree with it -----

  ghost predicate IsDuration(seconds: real, u: Unicode, text: string, rates: Rates) {
    exists chars :: IsEstimate(chars, u, text, rates) && seconds == Total(chars)
  }

  method EstimateSeconds(u: Unicode, text: string, rates: Rates) returns (seconds: real)
    ensures IsDuration(seconds, u, Normalized(u, text), rates)
  {
    var spoken := Normalized(u, text);
    var chars := EstimateChars(u, spoken, rates);
    seconds := 0.0;
    for i := 0 to |chars|
      invariant seconds == Total(chars[..i])
    {
      assert chars[..i + 1][..i] == chars[..i];
      seconds := seconds + chars[i];
    }
    assert chars[..|chars|] == chars;
  }

  /** How many of the first `n` characters are charged under `script`. */
  function Tally(u: Unicode, text: string, script: string, n: nat): nat
    requires n <= |text|
  {
    if n == 0 then 0
    else Tally(u, text, script, n - 1) + if ChargedScript(u, text, n - 1) == Some(script) then 1 else 0
  }

  /** The counts agree with the tally of the first `n` characters; while no script has turned
      up, `leading` holds them all. */
  ghost predicate Counted(counts: map<string, nat>, leading: nat, current: Option<string>, n: nat, u: Unicode,
                          text: string)
    requires n <= |text|
  {
    && current == (if n == 0 then None else Preceding(u, text, n - 1))
    && (current.None? ==> counts == map[] && leading == n)
    && (current.Some? ==> leading == 0)
    && (current.Some? ==>
          forall s {:trigger Tally(u, text, s, n)} :: Tally(u, text, s, n) == if s in counts then counts[s] else 0)
  }

  lemma {:induction false} LeadingTally(u: Unicode, text: string, i: nat, n: nat, s: string)
    requires n <= i < |text| && (i > 0 ==> Preceding(u, text, i - 1).None?) && ScriptOf(u, text[i]).Some?
    ensures Tally(u, text, s, n) == if ScriptOf(u, text[i]) == Some(s) then n else 0
  {
    if n > 0 {
      LeadingTally(u, text, i, n - 1, s);
      LeadingTakesFirst(u, text, i, n - 1);
    }
  }

  function CountOf(counts: map<string, nat>, script: string): nat {
    if script in counts then counts[script] else 0
  }

  /** Every script's count is the number of characters charged under it, and without a scripted
      character there is no count at all. */
  ghost predicate AreCounts(counts: map<string, nat>, u: Unicode, text: string) {
    forall s :: CountOf(counts, s) == if Following(u, text, 0).None? then 0 else Tally(u, text, s, |text|)
  }

  method ScriptCounts(u: Unicode, text: string) returns (counts: map<string, nat>)
    ensures AreCounts(counts, u, Normalized(u, text))
  {
    var spoken := Normalized(u, text);
    counts := map[];
    var current: Option<string> := None;
    var leading := 0;
    for n := 0 to |spoken|
      invariant Counted(counts, leading, current, n, u, spoken)
    {
      var script := ScriptOf(u, spoken[n]);
      if script.None? {
        if current.None? {
          leading := leading + 1;
        } else {
          counts := counts[current.value := (if current.value in counts then counts[current.value] else 0) + 1];
        }
      } else {
        if current.None? {
          forall s ensures Tally(u, spoken, s, n) == if script == Some(s) then n else 0 {
            LeadingTally(u, spoken, n, n, s);
          }
        }
        counts := counts[script.value := (if script.value in counts then counts[script.value] else 0) + 1
                                         + if current.None? then leading else 0];
        leading := 0;
        current := script;
      }
    }
    if spoken != [] {
      SomeScriptIffCurrent(u, spoken);
    }
  }

  lemma SomeScriptIffCurrent(u: Unicode, text: string)
    requires text != []
    ensures Following(u, text, 0).None? <==> Preceding(u, text, |text| - 1).None?
  {
    if Preceding(u, text, |text| - 1).None? {
      NothingBefore(u, text, |text| - 1, 0);
    } else {
      FoundLater(u, text, |text| - 1, 0);
    }
  }

  lemma {:induction false} FoundLater(u: Unicode, text: string, i: nat, j: nat)
    requires j <= i < |text| && Preceding(u, text, i).Some? && (j > 0 ==> Preceding(u, text, j - 1).None?)
    ensures Following(u, text, j).Some?
    decreases i - j
  {
    if ScriptOf(u, text[j]).None? {
      FoundLater(u, text, i, j + 1);
    }
  }

  /** What the counts cost, script by script. */
  function Price(names: seq<string>, u: Unicode, text: string, n: nat, rates: Rates, fallback: real): real
    requires n <= |text| && fallback > 0.0
  {
    if names == [] then 0.0 else
      Price(names[1..], u, text, n, rates, fallback)
      + Tally(u, text, names[0], n) as real / RateOf(Some(names[0]), rates, fallback)
  }

  lemma OneMore(count: nat, rate: real)
    requires rate > 0.0
    ensures (count + 1) as real / rate == count as real / rate + 1.0 / rate
  {
  }

  ghost predicate Distinct(names: seq<string>) {
    forall i, j :: 0 <= i < j < |names| ==> names[i] != names[j]
  }

  /** One more character adds its own charge to the price, once. */
  lemma {:induction false} PriceStep(names: seq<string>, u: Unicode, text: string, n: nat, rates: Rates, fallback: real)
    requires n < |text| && fallback > 0.0 && ChargedScript(u, text, n).Some? && Distinct(names)
    ensures Price(names, u, text, n + 1, rates, fallback) == Price(names, u, text, n, rates, fallback)
      + if ChargedScript(u, text, n).value in names then CharSeconds(ChargedScript(u, text, n), rates, fallback)
        else 0.0
  {
    if names != [] {
      var name := names[0];
      PriceStep(names[1..], u, text, n, rates, fallback);
      OneMore(Tally(u, text, name, n), RateOf(Some(name), rates, fallback));
      assert names == [name] + names[1..];
    }
  }

  lemma {:induction false} ZeroPrice(names: seq<string>, u: Unicode, text: string, rates: Rates, fallback: real)
    requires fallback > 0.0
    ensures Price(names, u, text, 0, rates, fallback) == 0.0
  {
    if names != [] {
      ZeroPrice(names[1..], u, text, rates, fallback);
    }
  }

  lemma {:induction false} ChargedIfAny(u: Unicode, text: string, i: nat)
    requires i < |text| && Following(u, text, 0).Some?
    ensures ChargedScript(u, text, i).Some?
  {
    if Preceding(u, text, i).None? {
      NothingBefore(u, text, i, 0);
      NothingBefore(u, text, i, i);
    }
  }

  lemma {:induction false} PricePrefix(names: seq<string>, u: Unicode, text: string, n: nat, chars: seq<real>,
                                       rates: Rates, fallback: real)
    requires n <= |text| && fallback > 0.0 && IsPriced(chars, u, text, rates, fallback)
    requires Following(u, text, 0).Some? && Distinct(names)
    requires forall i {:trigger ChargedScript(u, text, i)} :: 0 <= i < |text| ==>
      ChargedScript(u, text, i).Some? ==> ChargedScript(u, text, i).value in names
    ensures Total(chars[..n]) == Price(names, u, text, n, rates, fallback)
  {
    if n == 0 {
      ZeroPrice(names, u, text, rates, fallback);
    } else {
      PricePrefix(names, u, text, n - 1, chars, rates, fallback);
      ChargedIfAny(u, text, n - 1);
      PriceStep(names, u, text, n - 1, rates, fallback);
      assert chars[..n][..n - 1] == chars[..n - 1];
    }
  }

  /** For a text with any scripted character, the per-character estimate is the sum over
      scripts of count divided by rate, in whatever order the scripts are listed. */
  lemma CountsPriceTheText(names: seq<string>, u: Unicode, text: string, chars: seq<real>, rates: Rates, fallback: real)
    requires fallback > 0.0 && IsPriced(chars, u, text, rates, fallback)
    requires Following(u, text, 0).Some? && Distinct(names)
    requires forall i {:trigger ChargedScript(u, text, i)} :: 0 <= i < |text| ==>
      ChargedScript(u, text, i).Some? ==> ChargedScript(u, text, i).value in names
    ensures Total(chars) == Price(names, u, text, |text|, rates, fallback)
  {
    PricePrefix(names, u, text, |text|, chars, rates, fallback);
    assert chars[..|text|] == chars;
  }

  lemma {:induction false} PositiveTotal(chars: seq<real>)
    requires chars != [] && forall i :: 0 <= i < |chars| ==> chars[i] > 0.0
    ensures Total(chars) > 0.0
  {
    if |chars| > 1 {
      PositiveTotal(chars[..|chars| - 1]);
    }
  }

  /** The counts leave a text without any scripted character out, while the estimate charges it
      at the slowest rate: the two agree exactly when the text is empty or has a script. */
  lemma CountsAgreeIff(names: seq<string>, u: Unicode, text: string, chars: seq<real>, rates: Rates, fallback: real)
    requires fallback > 0.0 && IsPriced(chars, u, text, rates, fallback) && Distinct(names)
    requires forall i {:trigger ChargedScript(u, text, i)} :: 0 <= i < |text| ==>
      ChargedScript(u, text, i).Some? ==> ChargedScript(u, text, i).value in names
    ensures Total(chars) == (if Following(u, text, 0).None? then 0.0
                             else Price(names, u, text, |text|, rates, fallback))
      <==> text == [] || Following(u, text, 0).Some?
  {
    if Following(u, text, 0).Some? {
      CountsPriceTheText(names, u, text, chars, rates, fallback);
    } else if text != [] {
      PositiveTotal(chars);
    }
  }

  // ----- the two together -----

  /** What a table of counts costs, script by script in the order of `names`. */
  function CostOf(names: seq<string>, counts: map<string, nat>, rates: Rates, fallback: real): real
    requires fallback > 0.0
  {
    if names == [] then 0.0 else
      CostOf(names[1..], counts, rates, fallback)
      + CountOf(counts, names[0]) as real / RateOf(Some(names[0]), rates, fallback)
  }

  lemma {:induction false} CostIsPrice(names: seq<string>, counts: map<string, nat>, u: Unicode, text: string,
                                       rates: Rates, fallback: real)
    requires fallback > 0.0 && AreCounts(counts, u, text)
    ensures CostOf(names, counts, rates, fallback)
         == if Following(u, text, 0).None? then 0.0 else Price(names, u, text, |text|, rates, fallback)
  {
    if names != [] { CostIsPrice(names[1..], counts, u, text, rates, fallback); }
  }

  lemma {:induction false} TallyOfCharged(u: Unicode, text: string, i: nat, n: nat)
    requires i < n <= |text| && ChargedScript(u, text, i).Some?
    ensures Tally(u, text, ChargedScript(u, text, i).value, n) > 0
  {
    if i < n - 1 { TallyOfCharged(u, text, i, n - 1); }
  }

  lemma ChargedIsCounted(counts: map<string, nat>, u: Unicode, text: string, i: nat)
    requires AreCounts(counts, u, text) && Following(u, text, 0).Some?
    requires i < |text| && ChargedScript(u, text, i).Some?
    ensures ChargedScript(u, text, i).value in counts
  {
    TallyOfCharged(u, text, i, |text|);
    assert CountOf(counts, ChargedScript(u, text, i).value) > 0;
  }

  /** The table `ScriptCounts` returns, priced at the rates in whatever order its scripts are
      listed, is the number `EstimateSeconds` returns, if and only if the text is empty or has a
      scripted character. */
  lemma TableGivesTheEstimateIff(names: seq<string>, counts: map<string, nat>, seconds: real, u: Unicode, text: string,
                                 rates: Rates, fallback: real)
    requires AreCounts(counts, u, text) && IsDuration(seconds, u, text, rates)
    requires IsLeast(fallback, rates) && fallback > 0.0
    requires Distinct(names) && forall s :: s in counts ==> s in names
    ensures seconds == CostOf(names, counts, rates, fallback) <==> text == [] || Following(u, text, 0).Some?
  {
    var chars :| IsEstimate(chars, u, text, rates) && seconds == Total(chars);
    var least :| IsLeast(least, rates) && least > 0.0 && IsPriced(chars, u, text, rates, least);
    assert least == fallback;
    CostIsPrice(names, counts, u, text, rates, fallback);
    if Following(u, text, 0).Some? {
      forall i | 0 <= i < |text| && ChargedScript(u, text, i).Some? ensures ChargedScript(u, text, i).value in names {
        ChargedIsCounted(counts, u, text, i);
      }
      CountsPriceTheText(names, u, text, chars, rates, fallback);
    } else if text != [] {
      PositiveTotal(chars);
    }
  }
}
