/** What normalising whitespace does to a text (tools/voxkit.py:139, 255 and
    tools/measure_speech_rates.py:158), said without splitting or joining it. */
module Whitespace {
  import opened SpeechRates

  /** No space begins or ends the text, none follows another, and each is a blank. */
  ghost predicate IsTidy(u: Unicode, text: string) {
    && (text != [] ==> !u.isSpace(text[0]))
    && IsTidyTail(u, text)
  }

  /** The same of what is left of a text, which may begin with a space. */
  ghost predicate IsTidyTail(u: Unicode, text: string) {
    && (text != [] ==> !u.isSpace(text[|text| - 1]))
    && (forall i :: 0 <= i < |text| && u.isSpace(text[i]) ==> text[i] == ' ')
    && (forall i :: 0 <= i < |text| - 1 ==> !(u.isSpace(text[i]) && u.isSpace(text[i + 1])))
  }

  /** There is whitespace between the first `n` visible characters and the next. */
  ghost predicate GapAfter(u: Unicode, text: string, n: nat) {
    exists i :: 0 <= i < |text| && u.isSpace(text[i]) && |Visible(u, text[..i])| == n
  }

  /** `tidy` has the visible characters of `raw` in order, and a gap exactly where `raw` has one. */
  ghost predicate Tidies(u: Unicode, raw: string, tidy: string) {
    && IsTidy(u, tidy) && Visible(u, tidy) == Visible(u, raw)
    && forall n: nat :: 0 < n < |Visible(u, raw)| ==> (GapAfter(u, tidy, n) <==> GapAfter(u, raw, n))
  }

  // ----- gaps -----

  lemma GapOfFirst(u: Unicode, c: char, rest: string, n: nat)
    ensures GapAfter(u, [c] + rest, n)
       <==> if u.isSpace(c) then n == 0 || GapAfter(u, rest, n) else n > 0 && GapAfter(u, rest, n - 1)
  {
    var text := [c] + rest;
    forall i | 0 <= i < |rest|
      ensures Visible(u, text[..i + 1]) == (if u.isSpace(c) then [] else [c]) + Visible(u, rest[..i]) {
      assert text[..i + 1][1..] == rest[..i];
    }
    if GapAfter(u, text, n) {
      var i :| 0 <= i < |text| && u.isSpace(text[i]) && |Visible(u, text[..i])| == n;
      if i > 0 { assert u.isSpace(rest[i - 1]) && |Visible(u, rest[..i - 1])| == n - if u.isSpace(c) then 0 else 1; }
    }
    var k := n - if u.isSpace(c) then 0 else 1;
    if k >= 0 && GapAfter(u, rest, k) {
      var i :| 0 <= i < |rest| && u.isSpace(rest[i]) && |Visible(u, rest[..i])| == k;
      assert u.isSpace(text[i + 1]) && |Visible(u, text[..i + 1])| == n;
    }
    if u.isSpace(c) { assert u.isSpace(text[0]) && |Visible(u, text[..0])| == 0; }
  }

  /** A word has no gap, so the gaps behind it are those of what follows. */
  lemma {:induction false} GapBehindWord(u: Unicode, word: string, text: string, n: nat)
    requires forall i :: 0 <= i < |word| ==> !u.isSpace(word[i])
    ensures GapAfter(u, word + text, n) <==> n >= |word| && GapAfter(u, text, n - |word|)
    ensures Visible(u, word + text) == word + Visible(u, text)
    decreases |word|
  {
    if word == [] {
      assert word + text == text;
    } else {
      var rest := word[1..];
      GapBehindWord(u, rest, text, if n > 0 then n - 1 else 0);
      GapOfFirst(u, word[0], rest + text, n);
      assert word + text == [word[0]] + (rest + text) && (word + text)[1..] == rest + text;
    }
  }

  // ----- the words and their join -----

  predicate IsWord(u: Unicode, word: string) {
    word != [] && forall i :: 0 <= i < |word| ==> !u.isSpace(word[i])
  }

  ghost predicate AreWords(u: Unicode, words: seq<string>) {
    forall k :: 0 <= k < |words| ==> IsWord(u, words[k])
  }

  lemma {:induction false} SplitsIntoWords(u: Unicode, text: string, word: string)
    requires word == [] || IsWord(u, word)
    ensures AreWords(u, Words(u, text, word))
    decreases |text|
  {
    if text != [] {
      if u.isSpace(text[0]) {
        SplitsIntoWords(u, text[1..], []);
      } else {
        SplitsIntoWords(u, text[1..], word + [text[0]]);
      }
    }
  }

  lemma {:induction false} JoinIsTidy(u: Unicode, words: seq<string>)
    requires u.isSpace(' ') && AreWords(u, words)
    ensures IsTidy(u, Join(words)) && (words != [] ==> Join(words) != [])
    decreases |words|
  {
    if |words| > 1 {
      JoinIsTidy(u, words[1..]);
      assert IsWord(u, words[0]);
      WordFirstIsTidy(u, words[0], Join(words[1..]));
    } else if words != [] {
      assert IsWord(u, words[0]);
    }
  }

  lemma WordFirstIsTidy(u: Unicode, word: string, rest: string)
    requires u.isSpace(' ') && IsWord(u, word) && IsTidy(u, rest) && rest != []
    ensures IsTidy(u, word + " " + rest)
  {
    var text, n := word + " " + rest, |word|;
    forall i | 0 <= i < |text|
      ensures if i < n then text[i] == word[i] else if i == n then text[i] == ' ' else text[i] == rest[i - n - 1] {
    }
  }

  /** The gaps of the joined words, where `word` is the word being read, are those of the text. */
  lemma {:induction false} WordsKeepGaps(u: Unicode, text: string, word: string, n: nat)
    requires u.isSpace(' ') && (word == [] || IsWord(u, word))
    requires 0 < n < |Visible(u, word + text)|
    ensures GapAfter(u, Join(Words(u, text, word)), n) <==> GapAfter(u, word + text, n)
    decreases |text|
  {
    if text == [] {
      assert word + text == word;
    } else if u.isSpace(text[0]) {
      var rest := text[1..];
      assert text == [text[0]] + rest;
      GapOfFirst(u, text[0], rest, if n >= |word| then n - |word| else 0);
      GapBehindWord(u, word, text, n);
      WordsKeepVisible(u, rest, []);
      assert [] + rest == rest;
      if word == [] {
        assert [] + Words(u, rest, []) == Words(u, rest, []) && word + text == text;
        WordsKeepGaps(u, rest, [], n);
      } else {
        JoinedGaps(u, word, Words(u, rest, []), rest, n);
        if n > |word| { WordsKeepGaps(u, rest, [], n - |word|); }
      }
    } else {
      assert (word + [text[0]]) + text[1..] == word + text;
      WordsKeepGaps(u, text[1..], word + [text[0]], n);
    }
  }

  lemma JoinedGaps(u: Unicode, word: string, words: seq<string>, rest: string, n: nat)
    requires u.isSpace(' ') && IsWord(u, word) && Visible(u, Join(words)) == Visible(u, rest)
    requires n < |word| + |Visible(u, rest)|
    ensures GapAfter(u, Join([word] + words), n)
       <==> n == |word| || (n > |word| && GapAfter(u, Join(words), n - |word|))
  {
    if words == [] {
      assert [word] + words == [word] && word + [] == word;
      GapBehindWord(u, word, [], n);
    } else {
      assert ([word] + words)[1..] == words;
      assert Join([word] + words) == word + ([' '] + Join(words));
      GapBehindWord(u, word, [' '] + Join(words), n);
      GapOfFirst(u, ' ', Join(words), if n >= |word| then n - |word| else 0);
    }
  }

  /** The normalised text is tidy, drops whitespace and nothing else, and has a blank between two
      visible characters exactly where the text has whitespace between them. */
  lemma NormalizedTidies(u: Unicode, raw: string)
    requires u.isSpace(' ')
    ensures Tidies(u, raw, Normalized(u, raw))
  {
    SplitsIntoWords(u, raw, []);
    JoinIsTidy(u, Words(u, raw, []));
    NormalizedKeepsVisible(u, raw);
    assert [] + raw == raw;
    forall n: nat | 0 < n < |Visible(u, raw)| ensures GapAfter(u, Normalized(u, raw), n) <==> GapAfter(u, raw, n) {
      WordsKeepGaps(u, raw, [], n);
    }
  }

  // ----- and nothing else does -----

  lemma {:induction false} TidyTailsAgree(u: Unicode, a: string, b: string)
    requires IsTidyTail(u, a) && IsTidyTail(u, b) && Visible(u, a) == Visible(u, b)
    requires forall n: nat :: n < |Visible(u, a)| ==> (GapAfter(u, a, n) <==> GapAfter(u, b, n))
    ensures a == b
    decreases |a|
  {
    if a == [] {
      if b != [] { LastIsVisible(u, b); }
    } else {
      LastIsVisible(u, a);
      FirstGap(u, a);
      FirstGap(u, b);
      var x, y := a[1..], b[1..];
      assert a == [a[0]] + x && b == [b[0]] + y;
      FirstsAgree(u, a[0], x, b[0], y);
      TidyRest(u, a);
      TidyRest(u, b);
      forall n: nat | n < |Visible(u, x)| ensures GapAfter(u, x, n) <==> GapAfter(u, y, n) {
        RestGaps(u, a, n);
        RestGaps(u, b, n);
      }
      TidyTailsAgree(u, x, y);
    }
  }

  lemma TidyRest(u: Unicode, text: string)
    requires IsTidyTail(u, text) && text != []
    ensures IsTidyTail(u, text[1..])
  {
    var rest := text[1..];
    forall i | 0 <= i < |rest| ensures rest[i] == text[i + 1] {
    }
  }

  lemma LastIsVisible(u: Unicode, text: string)
    requires IsTidyTail(u, text) && text != []
    ensures Visible(u, text) != []
  {
    var n := |text| - 1;
    assert text == text[..n] + [text[n]];
    VisibleOfConcat(u, text[..n], [text[n]]);
  }

  /** A gap before everything is a first character that is a space. */
  lemma FirstGap(u: Unicode, text: string)
    requires text != []
    ensures GapAfter(u, text, 0) <==> u.isSpace(text[0])
  {
    assert text == [text[0]] + text[1..];
    GapOfFirst(u, text[0], text[1..], 0);
  }

  lemma FirstsAgree(u: Unicode, c: char, x: string, d: char, y: string)
    requires u.isSpace(c) <==> u.isSpace(d)
    requires u.isSpace(c) ==> c == d
    requires Visible(u, [c] + x) == Visible(u, [d] + y)
    ensures c == d && Visible(u, x) == Visible(u, y)
  {
    assert ([c] + x)[1..] == x && ([d] + y)[1..] == y;
    var v, w := Visible(u, x), Visible(u, y);
    if u.isSpace(c) {
      assert [] + v == v && [] + w == w;
    } else {
      assert [c] + v == [d] + w;
      assert ([c] + v)[0] == c && ([d] + w)[0] == d && ([c] + v)[1..] == v && ([d] + w)[1..] == w;
    }
  }

  lemma RestGaps(u: Unicode, text: string, n: nat)
    requires IsTidyTail(u, text) && text != []
    ensures GapAfter(u, text[1..], n)
       <==> if u.isSpace(text[0]) then n > 0 && GapAfter(u, text, n) else GapAfter(u, text, n + 1)
  {
    var rest := text[1..];
    assert text == [text[0]] + rest;
    GapOfFirst(u, text[0], rest, n);
    GapOfFirst(u, text[0], rest, n + 1);
    if u.isSpace(text[0]) && n == 0 && rest != [] { FirstGap(u, rest); }
  }

  /** Normalising gives the one text that tidies. */
  lemma NormalizedIffTidies(u: Unicode, raw: string, tidy: string)
    requires u.isSpace(' ')
    ensures tidy == Normalized(u, raw) <==> Tidies(u, raw, tidy)
  {
    NormalizedTidies(u, raw);
    if Tidies(u, raw, tidy) {
      var other := Normalized(u, raw);
      if tidy != [] { FirstGap(u, tidy); }
      if other != [] { FirstGap(u, other); }
      TidyTailsAgree(u, tidy, other);
    }
  }

  /** A tidy text is left as it is. */
  lemma TidyIsUnchanged(u: Unicode, text: string)
    requires u.isSpace(' ')
    ensures IsTidy(u, text) <==> Normalized(u, text) == text
  {
    NormalizedIffTidies(u, text, text);
  }
}
