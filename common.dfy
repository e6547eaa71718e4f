/** Shared vocabulary of the model: optional values, results, Python string and
    slicing semantics, and a few real-valued helpers. */
module Common {

  datatype Option<T> = None | Some(value: T)

  datatype Result<T, E> = Ok(value: T) | Err(error: E)
  {
    predicate IsOk() { Ok? }
  }

  /** Clock readings: microseconds since the Unix epoch (UTC). */
  type Instant = int

  const MICROS_PER_SECOND: int := 1_000_000
  const MICROS_PER_MINUTE: int := 60 * MICROS_PER_SECOND
  const MICROS_PER_HOUR: int := 60 * MICROS_PER_MINUTE
  const MICROS_PER_DAY: int := 24 * MICROS_PER_HOUR

  /** One value of Python's `random.random()`: a real in [0, 1). */
  type Draw = r: real | 0.0 <= r < 1.0

  /** `random.uniform(lo, hi)`, which Python computes as lo + (hi - lo) * random(). */
  function Uniform(lo: real, hi: real, u: Draw): (r: real)
    requires lo <= hi
    ensures lo <= r
    ensures r <= hi
  {
    var d := hi - lo;
    assert d * u <= d by { assert d * u <= d * 1.0; }
    lo + d * u
  }

  /** Python's `int(x)` of the float x = a / b: truncation toward zero. */
  function TruncDiv(a: int, b: int): (q: int)
    requires b > 0
    ensures a >= 0 ==> q == a / b
    ensures a < 0 ==> q == -((-a) / b)
  {
    if a >= 0 then a / b else -((-a) / b)
  }

  /** A JSON value, as a request body or a JSON column holds it. */
  datatype Json = JNull | JBool(b: bool) | JNum(n: real) | JStr(s: string)
                | JList(items: seq<Json>) | JObject(fields: map<string, Json>)

  /** Python truthiness of a JSON value. */
  predicate Truthy(v: Json)
  {
    match v
    case JNull => false
    case JBool(b) => b
    case JNum(n) => n != 0.0
    case JStr(s) => |s| > 0
    case JList(items) => |items| > 0
    case JObject(fields) => |fields| > 0
  }

  // ---------------------------------------------------------------- strings

  /** Python's `s.startswith(p)`. */
  predicate StartsWith(s: string, p: string)
  {
    |p| <= |s| && s[..|p|] == p
  }

  /** Python's `s.endswith(p)`. */
  predicate EndsWith(s: string, p: string)
  {
    |p| <= |s| && s[|s| - |p|..] == p
  }

  /** Python's substring test `sub in s`. */
  predicate Contains(s: string, sub: string)
    decreases |s|
  {
    StartsWith(s, sub) || (|s| > 0 && Contains(s[1..], sub))
  }

  /** `sub` occurs in `s` at offset `i`. */
  predicate OccursAt(s: string, sub: string, i: int)
  {
    0 <= i <= |s| - |sub| && s[i..i + |sub|] == sub
  }

  /** `Contains` holds exactly when `sub` occurs at some offset of `s`. */
  lemma {:induction false} ContainsAt(s: string, sub: string)
    ensures Contains(s, sub) <==> exists i :: OccursAt(s, sub, i)
    decreases |s|
  {
    if StartsWith(s, sub) {
      assert OccursAt(s, sub, 0);
    }
    if |s| > 0 {
      ContainsAt(s[1..], sub);
      if Contains(s[1..], sub) {
        var i :| OccursAt(s[1..], sub, i);
        assert s[i + 1..i + 1 + |sub|] == s[1..][i..i + |sub|];
        assert OccursAt(s, sub, i + 1);
      }
      if exists i :: OccursAt(s, sub, i) {
        var i :| OccursAt(s, sub, i);
        if i > 0 {
          assert s[1..][i - 1..i - 1 + |sub|] == s[i..i + |sub|];
          assert OccursAt(s[1..], sub, i - 1);
        } else {
          assert StartsWith(s, sub);
        }
      }
    } else if exists i :: OccursAt(s, sub, i) {
      var i :| OccursAt(s, sub, i);
      assert StartsWith(s, sub);
    }
  }

  /** A string lacking one of `sub`'s characters does not contain `sub`. */
  lemma MissingCharNotContained(s: string, sub: string, k: int)
    requires 0 <= k < |sub| && sub[k] !in s
    ensures !Contains(s, sub)
  {
    forall i | 0 <= i <= |s| - |sub| ensures !OccursAt(s, sub, i) {
      assert s[i..i + |sub|][k] == s[i + k] && s[i + k] in s;
    }
    ContainsAt(s, sub);
  }

  /** ASCII upper-casing of one character (Python's `str.upper` restricted to ASCII). */
  function UpperChar(c: char): (r: char)
    ensures 'a' <= c <= 'z' ==> 'A' <= r <= 'Z'
    ensures !('a' <= c <= 'z') ==> r == c
  {
    if 'a' <= c <= 'z' then (c as int - 32) as char else c
  }

  function Upper(s: string): (r: string)
    ensures |r| == |s|
    ensures forall i :: 0 <= i < |s| ==> r[i] == UpperChar(s[i])
  {
    if |s| == 0 then [] else [UpperChar(s[0])] + Upper(s[1..])
  }

  /** Python truthiness of an optional string (`None` and `""` are false). */
  predicate TruthyStr(s: Option<string>)
  {
    s.Some? && s.value != ""
  }

  // ---------------------------------------------------------------- reals

  function Abs(x: real): (r: real)
    ensures r >= 0.0 && (r == x || r == -x)
  {
    if x < 0.0 then -x else x
  }

  function Min(a: real, b: real): (r: real)
    ensures r <= a && r <= b && (r == a || r == b)
  {
    if a <= b then a else b
  }

  function Max(a: real, b: real): (r: real)
    ensures r >= a && r >= b && (r == a || r == b)
  {
    if a >= b then a else b
  }

  /** `np.clip(x, lo, hi)` for lo <= hi. */
  function Clip(x: real, lo: real, hi: real): (r: real)
    requires lo <= hi
    ensures lo <= r <= hi
    ensures lo <= x <= hi ==> r == x
    ensures x < lo ==> r == lo
    ensures x > hi ==> r == hi
  {
    Min(Max(x, lo), hi)
  }

  /** Multiplying by a positive factor keeps an order. */
  lemma MulMonotone(a: real, x: real, y: real)
    requires a > 0.0 && x <= y
    ensures a * x <= a * y
  {
    assert a * y - a * x == a * (y - x);
  }

  lemma MulPositive(a: real, b: real)
    requires a > 0.0 && b > 0.0
    ensures a * b > 0.0
  {
  }

  function Sum(s: seq<real>): real
  {
    if |s| == 0 then 0.0 else s[0] + Sum(s[1..])
  }

  lemma {:induction false} SumAppend(s: seq<real>, t: seq<real>)
    ensures Sum(s + t) == Sum(s) + Sum(t)
  {
    if |s| == 0 {
      assert s + t == t;
    } else {
      assert (s + t)[1..] == s[1..] + t;
      SumAppend(s[1..], t);
    }
  }

  /** Arithmetic mean of a non-empty list (`np.mean` / `statistics.mean`). */
  function Mean(s: seq<real>): real
    requires |s| > 0
  {
    Sum(s) / |s| as real
  }

  lemma {:induction false} SumBounds(s: seq<real>, lo: real, hi: real)
    requires forall i :: 0 <= i < |s| ==> lo <= s[i] <= hi
    ensures lo * |s| as real <= Sum(s) <= hi * |s| as real
  {
    if |s| > 0 {
      SumBounds(s[1..], lo, hi);
    }
  }

  /** The mean lies between any bounds that hold for every element. */
  lemma MeanBounds(s: seq<real>, lo: real, hi: real)
    requires |s| > 0
    requires forall i :: 0 <= i < |s| ==> lo <= s[i] <= hi
    ensures lo <= Mean(s) <= hi
  {
    SumBounds(s, lo, hi);
    var n := |s| as real;
    assert Sum(s) / n >= lo by { assert Sum(s) >= lo * n; }
    assert Sum(s) / n <= hi by { assert Sum(s) <= hi * n; }
  }

  lemma {:induction false} SumPositive(s: seq<real>)
    requires |s| > 0
    requires forall i :: 0 <= i < |s| ==> s[i] > 0.0
    ensures Sum(s) > 0.0
  {
    if |s| > 1 {
      SumPositive(s[1..]);
    }
  }

  /** The mean of positive values is positive. */
  lemma MeanPositive(s: seq<real>)
    requires |s| > 0
    requires forall i :: 0 <= i < |s| ==> s[i] > 0.0
    ensures Mean(s) > 0.0
  {
    SumPositive(s);
  }

  // ---------------------------------------------------------------- sequences

  /** A part of a positive whole, as a percentage, lies in [0, 100]. */
  lemma PercentBounds(part: real, whole: real)
    requires 0.0 <= part <= whole && whole > 0.0
    ensures 0.0 <= part / whole * 100.0 <= 100.0
  {
    assert part / whole * whole == part;
  }

  /** A non-negative amount over a positive one is non-negative. */
  lemma QuotientNonNegative(a: real, b: real)
    requires a >= 0.0 && b > 0.0
    ensures a / b >= 0.0
  {
    var q := a / b;
    assert b * q == a;
    if q < 0.0 {
      MulPositive(b, -q);
    }
  }

  /** A part no larger than a positive whole is at most the whole of it. */
  lemma RatioAtMostOne(part: real, whole: real)
    requires part <= whole && whole > 0.0
    ensures part / whole <= 1.0
  {
    var q := part / whole;
    assert whole * q == part;
    if q > 1.0 {
      MulPositive(whole, q - 1.0);
    }
  }

  /** Python's `max(xs)` position: the first index holding the largest value. */
  function FirstMaxIndex(xs: seq<real>): (r: nat)
    requires |xs| > 0
    ensures r < |xs|
    ensures forall k :: 0 <= k < |xs| ==> xs[k] <= xs[r]
    ensures forall k :: 0 <= k < r ==> xs[k] < xs[r]
  {
    if |xs| == 1 then 0
    else
      var rest := FirstMaxIndex(xs[1..]) + 1;
      if xs[0] >= xs[rest] then 0 else rest
  }

  /** Python's `min(xs)` position: the first index holding the smallest value. */
  function FirstMinIndex(xs: seq<real>): (r: nat)
    requires |xs| > 0
    ensures r < |xs|
    ensures forall k :: 0 <= k < |xs| ==> xs[r] <= xs[k]
    ensures forall k :: 0 <= k < r ==> xs[r] < xs[k]
  {
    if |xs| == 1 then 0
    else
      var rest := FirstMinIndex(xs[1..]) + 1;
      if xs[0] <= xs[rest] then 0 else rest
  }

  predicate Distinct<T(==)>(s: seq<T>)
  {
    forall i, j :: 0 <= i < j < |s| ==> s[i] != s[j]
  }

  lemma DistinctSnoc<T>(s: seq<T>, x: T)
    requires Distinct(s) && x !in s
    ensures Distinct(s + [x])
  {
  }

  /** `s` with every occurrence of `x` removed, the others kept in order. */
  function Without<T(==,!new)>(s: seq<T>, x: T): (r: seq<T>)
    ensures forall y :: y in r <==> y in s && y != x
    ensures |r| <= |s|
    ensures x !in s ==> r == s
  {
    if |s| == 0 then [] else Without(s[..|s| - 1], x) + (if s[|s| - 1] == x then [] else [s[|s| - 1]])
  }

  lemma {:induction false} WithoutDistinct<T(!new)>(s: seq<T>, x: T)
    requires Distinct(s)
    ensures Distinct(Without(s, x))
  {
    if |s| > 0 {
      var init := s[..|s| - 1];
      assert Distinct(init);
      WithoutDistinct(init, x);
      assert s[|s| - 1] !in init;
    }
  }

  // ---------------------------------------------------------------- Python slicing

  /** Python's normalisation of a slice bound `i` against a list of length `n`. */
  function PyIndex(n: nat, i: int): (r: nat)
    ensures r <= n
    ensures 0 <= i <= n ==> r == i
    ensures i > n ==> r == n
    ensures i < 0 && i + n >= 0 ==> r == i + n
    ensures i + n < 0 ==> r == 0
  {
    if i < 0 then (if i + n < 0 then 0 else i + n) else if i > n then n else i
  }

  /** `s[start:]`. */
  function PySliceFrom<T>(s: seq<T>, start: int): seq<T>
  {
    s[PyIndex(|s|, start)..]
  }

  /** `s[:stop]`. */
  function PySliceTo<T>(s: seq<T>, stop: int): seq<T>
  {
    s[..PyIndex(|s|, stop)]
  }

  /** pandas `series.tail(k)`: the last `k` elements, or all of them when there are fewer. */
  function Tail<T>(s: seq<T>, k: nat): (r: seq<T>)
    ensures |r| == if |s| < k then |s| else k
    ensures r == s[|s| - |r|..]
  {
    if |s| <= k then s else s[|s| - k..]
  }

  /** `s[-limit:]` keeps the last `limit` elements for a positive limit, the whole
      list for `limit == 0` (since `-0 == 0`), and drops the first `-limit`
      elements for a negative one. */
  lemma LastItems<T>(s: seq<T>, limit: int)
    ensures limit > 0 && limit <= |s| ==> PySliceFrom(s, -limit) == s[|s| - limit..]
    ensures limit > 0 && limit > |s| ==> PySliceFrom(s, -limit) == s
    ensures limit == 0 ==> PySliceFrom(s, -limit) == s
    ensures limit < 0 ==> PySliceFrom(s, -limit) == (if -limit <= |s| then s[-limit..] else [])
  {
  }

  /** `s[:limit]` keeps the first `limit` elements for a non-negative limit and drops
      the last `-limit` elements for a negative one. */
  lemma FirstItems<T>(s: seq<T>, limit: int)
    ensures limit >= 0 ==> PySliceTo(s, limit) == (if limit <= |s| then s[..limit] else s)
    ensures limit < 0 ==> PySliceTo(s, limit) == (if -limit <= |s| then s[..|s| + limit] else [])
  {
  }
}
