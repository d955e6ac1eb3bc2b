/** Character error rate (tools/asr_metrics.py): the rolling-row edit distance, proved to be
    the least cost over all edit scripts, and a metric. */
module EditDistance {
  import opened Prelude

  // ----- the specification: edit scripts -----

  datatype Edit = Insert(added: char) | Delete(removed: char) | Replace(from: char, to: char)

  /** Edits in the order they run; the last one is outermost. */
  datatype Script = Untouched | Then(earlier: Script, edit: Edit)

  function EditCost(e: Edit): nat {
    if e.Replace? && e.from == e.to then 0 else 1
  }

  function Cost(script: Script): nat {
    match script
    case Untouched => 0
    case Then(earlier, e) => Cost(earlier) + EditCost(e)
  }

  /** The text a script reads. */
  function Before(script: Script): string {
    match script
    case Untouched => []
    case Then(earlier, Insert(_)) => Before(earlier)
    case Then(earlier, Delete(c)) => Before(earlier) + [c]
    case Then(earlier, Replace(c, _)) => Before(earlier) + [c]
  }

  /** The text a script writes. */
  function After(script: Script): string {
    match script
    case Untouched => []
    case Then(earlier, Insert(c)) => After(earlier) + [c]
    case Then(earlier, Delete(_)) => After(earlier)
    case Then(earlier, Replace(_, c)) => After(earlier) + [c]
  }

  ghost predicate Transforms(script: Script, a: string, b: string) {
    Before(script) == a && After(script) == b
  }

  function Init(s: string): string
    requires s != []
  {
    s[..|s| - 1]
  }

  function Last(s: string): char
    requires s != []
  {
    s[|s| - 1]
  }

  function Min3(x: nat, y: nat, z: nat): nat {
    if x <= y && x <= z then x else if y <= z then y else z
  }

  /** The recurrence the rows tabulate: the distance between two prefixes. */
  function Distance(a: string, b: string): nat
    decreases |a| + |b|
  {
    if a == [] then |b|
    else if b == [] then |a|
    else Min3(Distance(a, Init(b)) + 1,
              Distance(Init(a), b) + 1,
              Distance(Init(a), Init(b)) + if Last(a) != Last(b) then 1 else 0)
  }

  // ----- the distance is the optimum over scripts -----

  /** A script of exactly the distance's cost. */
  function BestScript(a: string, b: string): Script
    decreases |a| + |b|
  {
    if a == [] && b == [] then Untouched
    else if b != [] && Distance(a, b) == Distance(a, Init(b)) + 1 then
      Then(BestScript(a, Init(b)), Insert(Last(b)))
    else if a != [] && Distance(a, b) == Distance(Init(a), b) + 1 then
      Then(BestScript(Init(a), b), Delete(Last(a)))
    else if a != [] && b != [] then
      Then(BestScript(Init(a), Init(b)), Replace(Last(a), Last(b)))
    else
      Untouched
  }

  lemma InitLast(s: string)
    requires s != []
    ensures Init(s) + [Last(s)] == s
  {
  }

  lemma {:induction false} BestScriptIsBest(a: string, b: string)
    ensures Transforms(BestScript(a, b), a, b)
    ensures Cost(BestScript(a, b)) == Distance(a, b)
    decreases |a| + |b|
  {
    if a != [] { InitLast(a); }
    if b != [] { InitLast(b); }
    if a == [] && b == [] {
    } else if b != [] && Distance(a, b) == Distance(a, Init(b)) + 1 {
      BestScriptIsBest(a, Init(b));
    } else if a != [] && Distance(a, b) == Distance(Init(a), b) + 1 {
      BestScriptIsBest(Init(a), b);
    } else {
      BestScriptIsBest(Init(a), Init(b));
    }
  }

  /** Appending a character to either text costs at most one edit; to both, at most a replacement. */
  lemma DistanceGrows(a: string, b: string, c: char, d: char)
    ensures Distance(a, b + [d]) <= Distance(a, b) + 1
    ensures Distance(a + [c], b) <= Distance(a, b) + 1
    ensures Distance(a + [c], b + [d]) <= Distance(a, b) + if c != d then 1 else 0
  {
    assert Init(a + [c]) == a && Init(b + [d]) == b;
  }

  lemma {:induction false} NoScriptIsCheaper(script: Script)
    ensures Distance(Before(script), After(script)) <= Cost(script)
  {
    match script
    case Untouched =>
    case Then(earlier, e) =>
      NoScriptIsCheaper(earlier);
      var c := match e case Insert(c) => c case Delete(c) => c case Replace(c, _) => c;
      var d := match e case Insert(c) => c case Delete(c) => c case Replace(_, d) => d;
      DistanceGrows(Before(earlier), After(earlier), c, d);
  }

  /** The distance is attained by some script and undercut by none. */
  lemma DistanceIsLeastCost(a: string, b: string)
    ensures exists best :: Transforms(best, a, b) && Cost(best) == Distance(a, b)
    ensures forall script | Transforms(script, a, b) :: Distance(a, b) <= Cost(script)
  {
    BestScriptIsBest(a, b);
    forall script | Transforms(script, a, b) ensures Distance(a, b) <= Cost(script) {
      NoScriptIsCheaper(script);
    }
  }

  // ----- metric laws -----

  function Reverted(script: Script): (r: Script)
    ensures Before(r) == After(script) && After(r) == Before(script) && Cost(r) == Cost(script)
  {
    match script
    case Untouched => Untouched
    case Then(earlier, Insert(c)) => Then(Reverted(earlier), Delete(c))
    case Then(earlier, Delete(c)) => Then(Reverted(earlier), Insert(c))
    case Then(earlier, Replace(c, d)) => Then(Reverted(earlier), Replace(d, c))
  }

  lemma {:induction false} Symmetric(a: string, b: string)
    ensures Distance(a, b) == Distance(b, a)
  {
    BestScriptIsBest(a, b);
    BestScriptIsBest(b, a);
    NoScriptIsCheaper(Reverted(BestScript(a, b)));
    NoScriptIsCheaper(Reverted(BestScript(b, a)));
  }

  lemma SameLast(s: string, t: string, c: char, d: char)
    requires s + [c] == t + [d]
    ensures s == t && c == d
  {
    assert Init(s + [c]) == s && Init(t + [d]) == t;
    assert Last(s + [c]) == c && Last(t + [d]) == d;
  }

  /** Runs `first` and then `second`, fused into one script of no greater cost. */
  lemma {:induction false} Fuse(first: Script, second: Script) returns (r: Script)
    requires After(first) == Before(second)
    ensures Before(r) == Before(first) && After(r) == After(second)
    ensures Cost(r) <= Cost(first) + Cost(second)
    decreases first, second
  {
    match (first, second)
    case (Untouched, Untouched) => r := Untouched;
    case (Then(earlier, Delete(c)), _) =>
      r := Fuse(earlier, second);
      r := Then(r, Delete(c));
    case (_, Then(earlier, Insert(c))) =>
      r := Fuse(first, earlier);
      r := Then(r, Insert(c));
    case (Then(x, Insert(c)), Then(y, Delete(d))) =>
      SameLast(After(x), Before(y), c, d);
      r := Fuse(x, y);
    case (Then(x, Insert(c)), Then(y, Replace(d, e))) =>
      SameLast(After(x), Before(y), c, d);
      r := Fuse(x, y);
      r := Then(r, Insert(e));
    case (Then(x, Replace(b, c)), Then(y, Delete(d))) =>
      SameLast(After(x), Before(y), c, d);
      r := Fuse(x, y);
      r := Then(r, Delete(b));
    case (Then(x, Replace(b, c)), Then(y, Replace(d, e))) =>
      SameLast(After(x), Before(y), c, d);
      r := Fuse(x, y);
      r := Then(r, Replace(b, e));
  }

  lemma {:induction false} Triangle(a: string, b: string, c: string)
    ensures Distance(a, c) <= Distance(a, b) + Distance(b, c)
  {
    BestScriptIsBest(a, b);
    BestScriptIsBest(b, c);
    var direct := Fuse(BestScript(a, b), BestScript(b, c));
    NoScriptIsCheaper(direct);
  }

  lemma {:induction false} FreeScriptIsIdentity(script: Script)
    requires Cost(script) == 0
    ensures Before(script) == After(script)
  {
    if script.Then? {
      FreeScriptIsIdentity(script.earlier);
    }
  }

  lemma {:induction false} SelfDistance(a: string)
    ensures Distance(a, a) == 0
    decreases |a|
  {
    if a != [] {
      SelfDistance(Init(a));
    }
  }

  lemma {:induction false} ZeroIffEqual(a: string, b: string)
    ensures Distance(a, b) == 0 <==> a == b
  {
    if Distance(a, b) == 0 {
      BestScriptIsBest(a, b);
      FreeScriptIsIdentity(BestScript(a, b));
    }
    if a == b {
      SelfDistance(a);
    }
  }

  /** At least the difference of the lengths, at most the longer length. */
  lemma {:induction false} DistanceBounds(a: string, b: string)
    ensures |a| - |b| <= Distance(a, b) && |b| - |a| <= Distance(a, b)
    ensures Distance(a, b) <= if |a| < |b| then |b| else |a|
    decreases |a| + |b|
  {
    if a != [] && b != [] {
      DistanceBounds(a, Init(b));
      DistanceBounds(Init(a), b);
      DistanceBounds(Init(a), Init(b));
    }
  }

  // ----- the code -----

  ghost predicate IsRow(row: seq<nat>, left: string, right: string, filled: nat)
    requires filled <= |right|
  {
    |row| == filled + 1 && forall j: nat {:trigger row[j]} :: j <= filled ==> row[j] == Distance(left, right[..j])
  }

  /** One cell of the table from its three neighbours. */
  lemma Cell(left: string, right: string, i: nat, j: nat)
    requires i < |left| && j < |right|
    ensures Distance(left[..i + 1], right[..j + 1])
         == Min3(Distance(left[..i + 1], right[..j]) + 1,
                 Distance(left[..i], right[..j + 1]) + 1,
                 Distance(left[..i], right[..j]) + if left[i] != right[j] then 1 else 0)
  {
    assert Init(left[..i + 1]) == left[..i] && Init(right[..j + 1]) == right[..j];
  }

  lemma RowGrows(row: seq<nat>, left: string, right: string, j: nat, cell: nat)
    requires j < |right| && IsRow(row, left, right, j) && cell == Distance(left, right[..j + 1])
    ensures IsRow(row + [cell], left, right, j + 1)
  {
  }

  method NextRow(row: seq<nat>, left: string, right: string, i: nat) returns (nextRow: seq<nat>)
    requires i < |left| && IsRow(row, left[..i], right, |right|)
    ensures IsRow(nextRow, left[..i + 1], right, |right|)
  {
    nextRow := [i + 1];
    for j := 0 to |right|
      invariant IsRow(nextRow, left[..i + 1], right, j)
    {
      Cell(left, right, i, j);
      var cell := Min3(nextRow[|nextRow| - 1] + 1,
                       row[j + 1] + 1,
                       row[j] + if left[i] != right[j] then 1 else 0);
      RowGrows(nextRow, left[..i + 1], right, j, cell);
      nextRow := nextRow + [cell];
    }
  }

  method Levenshtein(left: string, right: string) returns (distance: nat)
    ensures distance == Distance(left, right)
  {
    var longer, shorter := left, right;
    if |longer| < |shorter| {
      longer, shorter := shorter, longer;
    }
    Symmetric(left, right);
    var row: seq<nat> := seq(|shorter| + 1, j requires 0 <= j => j);
    for i := 0 to |longer|
      invariant IsRow(row, longer[..i], shorter, |shorter|)
    {
      row := NextRow(row, longer, shorter, i);
    }
    assert longer[..|longer|] == longer && shorter[..|shorter|] == shorter;
    distance := row[|row| - 1];
  }

  /** `distance / length`, with the facts a reader of a rate relies on. */
  function Ratio(distance: nat, length: nat): (rate: real)
    requires length > 0
    ensures rate * length as real == distance as real
    ensures rate == 0.0 <==> distance == 0
    ensures rate <= 1.0 <==> distance <= length
  {
    var rate := distance as real / length as real;
    assert rate <= 1.0 ==> rate * length as real <= length as real;
    rate
  }

  /** The rate over two already normalised texts; no rate for an empty reference. */
  method CharacterErrorRate(reference: string, prediction: string) returns (rate: Option<real>)
    ensures rate.None? <==> reference == []
    ensures rate.Some? ==> rate.value == Ratio(Distance(reference, prediction), |reference|)
    ensures rate.Some? ==> (rate.value == 0.0 <==> prediction == reference)
    ensures rate.Some? && |prediction| <= |reference| ==> rate.value <= 1.0
  {
    if reference == [] {
      return None;
    }
    var distance := Levenshtein(reference, prediction);
    ZeroIffEqual(reference, prediction);
    DistanceBounds(reference, prediction);
    rate := Some(Ratio(distance, |reference|));
  }
}
