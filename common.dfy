/**
 * Shared vocabulary of the model: optional and fallible values, the outcome
 * of a float64 division, finite sums over the keys of a Go map, and the
 * decimal printing and parsing that several services rely on.
 *
 * Go's float64 is modelled by `real` (exact, no rounding). Where a service
 * divides without a guard, the IEEE outcome (NaN or an infinity) is kept
 * visible through `Float`.
 */
module Common {

  datatype Option<T> = None | Some(value: T)

  datatype Result<T> = Ok(value: T) | Err(error: string)

  /** A float64 value: finite, NaN, or an infinity of the given sign. */
  datatype Float = Finite(value: real) | NaN | Inf(positive: bool)

  /** IEEE division of two finite float64 operands (signed zeros ignored). */
  function Div(a: real, b: real): (r: Float)
    ensures r.Finite? <==> b != 0.0
    ensures r.Finite? ==> r.value * b == a
    ensures r.NaN? <==> a == 0.0 && b == 0.0
    ensures r.Inf? ==> (r.positive <==> a > 0.0)
  {
    if b != 0.0 then Finite(a / b)
    else if a == 0.0 then NaN
    else Inf(a > 0.0)
  }

  function Abs(x: real): real { if x < 0.0 then -x else x }

  function Max(a: real, b: real): real { if a >= b then a else b }

  function Min(a: real, b: real): real { if a <= b then a else b }

  /** A feature vector as the services exchange it: Go's map[string]float64. */
  type FeatureMap = map<string, real>

  /** Reading a missing key of a Go map yields the zero value. */
  function Lookup(m: FeatureMap, k: string): real
  {
    if k in m then m[k] else 0.0
  }

  /** The values of a feature map as a total function (0 off the map). */
  function ValuesOf(m: FeatureMap): string -> real
  {
    k => Lookup(m, k)
  }

  // ------------------------------------------------------------------
  // Sums over finite sets. A Go `for k, v := range m` loop visits the keys
  // in an unspecified order; these sums do not depend on it.
  // ------------------------------------------------------------------

  ghost function RealSum<K>(s: set<K>, f: K -> real): real
    decreases s
  {
    if s == {} then 0.0 else var k :| k in s; f(k) + RealSum(s - {k}, f)
  }

  /** Any element can be taken out first. */
  lemma {:induction false} RealSumRemove<K>(s: set<K>, f: K -> real, y: K)
    requires y in s
    ensures RealSum(s, f) == f(y) + RealSum(s - {y}, f)
    decreases s
  {
    var k :| k in s && RealSum(s, f) == f(k) + RealSum(s - {k}, f);
    if k != y {
      RealSumRemove(s - {k}, f, y);
      RealSumRemove(s - {y}, f, k);
      assert s - {k} - {y} == s - {y} - {k};
    }
  }

  /** A one-element sum is its only term. */
  lemma RealSumOne<K>(s: set<K>, f: K -> real, y: K)
    requires s == {y}
    ensures RealSum(s, f) == f(y)
  {
    RealSumRemove(s, f, y);
    assert s - {y} == {};
  }

  lemma {:induction false} RealSumExt<K>(s: set<K>, f: K -> real, g: K -> real)
    requires forall k :: k in s ==> f(k) == g(k)
    ensures RealSum(s, f) == RealSum(s, g)
    decreases s
  {
    if s != {} {
      var k :| k in s;
      RealSumRemove(s, f, k);
      RealSumRemove(s, g, k);
      RealSumExt(s - {k}, f, g);
    }
  }

  lemma {:induction false} RealSumMono<K>(s: set<K>, f: K -> real, g: K -> real)
    requires forall k :: k in s ==> f(k) <= g(k)
    ensures RealSum(s, f) <= RealSum(s, g)
    decreases s
  {
    if s != {} {
      var k :| k in s;
      RealSumRemove(s, f, k);
      RealSumRemove(s, g, k);
      RealSumMono(s - {k}, f, g);
    }
  }

  lemma {:induction false} RealSumPos<K>(s: set<K>, f: K -> real)
    requires s != {}
    requires forall k :: k in s ==> f(k) > 0.0
    ensures RealSum(s, f) > 0.0
    decreases s
  {
    var k :| k in s;
    RealSumRemove(s, f, k);
    if s - {k} != {} {
      RealSumPos(s - {k}, f);
    }
  }

  lemma {:induction false} RealSumNonneg<K>(s: set<K>, f: K -> real)
    requires forall k :: k in s ==> f(k) >= 0.0
    ensures RealSum(s, f) >= 0.0
    decreases s
  {
    if s != {} {
      var k :| k in s;
      RealSumRemove(s, f, k);
      RealSumNonneg(s - {k}, f);
    }
  }

  lemma {:induction false} RealSumScale<K>(s: set<K>, f: K -> real, g: K -> real, c: real)
    requires forall k :: k in s ==> g(k) == f(k) * c
    ensures RealSum(s, g) == RealSum(s, f) * c
    decreases s
  {
    if s != {} {
      var k :| k in s;
      RealSumScale(s - {k}, f, g, c);
      RealSumScaleStep(s, f, g, c, k);
    }
  }

  lemma RealSumScaleStep<K>(s: set<K>, f: K -> real, g: K -> real, c: real, k: K)
    requires k in s && g(k) == f(k) * c
    requires RealSum(s - {k}, g) == RealSum(s - {k}, f) * c
    ensures RealSum(s, g) == RealSum(s, f) * c
  {
    var total, a, b := RealSum(s, f), f(k), RealSum(s - {k}, f);
    var total', a', b' := RealSum(s, g), g(k), RealSum(s - {k}, g);
    assert total == a + b by { RealSumRemove(s, f, k); }
    assert total' == a' + b' by { RealSumRemove(s, g, k); }
    ScaleStep(total, a, b, total', a', b', c);
  }

  lemma ScaleStep(total: real, a: real, b: real, total': real, a': real, b': real, c: real)
    requires total == a + b && total' == a' + b'
    requires a' == a * c && b' == b * c
    ensures total' == total * c
  {
  }

  /** Terms between -1 and 1 sum to between -|s| and |s|. */
  lemma {:induction false} RealSumUnit<K>(s: set<K>, f: K -> real)
    requires forall k :: k in s ==> -1.0 <= f(k) <= 1.0
    ensures -(|s| as real) <= RealSum(s, f) <= |s| as real
    decreases s
  {
    if s != {} {
      var k :| k in s;
      RealSumRemove(s, f, k);
      RealSumUnit(s - {k}, f);
    }
  }

  /** Terms all equal to 1 sum to |s|. */
  lemma {:induction false} RealSumOnes<K>(s: set<K>, f: K -> real)
    requires forall k :: k in s ==> f(k) == 1.0
    ensures RealSum(s, f) == |s| as real
    decreases s
  {
    if s != {} {
      var k :| k in s;
      RealSumRemove(s, f, k);
      RealSumOnes(s - {k}, f);
    }
  }

  /** Adding a fresh element adds its term. */
  lemma RealSumAdd<K>(s: set<K>, f: K -> real, y: K)
    requires y !in s
    ensures RealSum(s + {y}, f) == RealSum(s, f) + f(y)
  {
    RealSumRemove(s + {y}, f, y);
    assert s + {y} - {y} == s;
  }

  /** Summing over a map's keys after one entry is raised by `d`. */
  lemma RealSumBump<K>(s: set<K>, f: K -> real, g: K -> real, y: K, d: real)
    requires y in s
    requires g(y) == f(y) + d
    requires forall k :: k in s && k != y ==> f(k) == g(k)
    ensures RealSum(s, g) == RealSum(s, f) + d
  {
    RealSumRemove(s, f, y);
    RealSumRemove(s, g, y);
    RealSumExt(s - {y}, f, g);
  }

  ghost function IntSum<K>(s: set<K>, f: K -> int): int
    decreases s
  {
    if s == {} then 0 else var k :| k in s; f(k) + IntSum(s - {k}, f)
  }

  lemma {:induction false} IntSumRemove<K>(s: set<K>, f: K -> int, y: K)
    requires y in s
    ensures IntSum(s, f) == f(y) + IntSum(s - {y}, f)
    decreases s
  {
    var k :| k in s && IntSum(s, f) == f(k) + IntSum(s - {k}, f);
    if k != y {
      IntSumRemove(s - {k}, f, y);
      IntSumRemove(s - {y}, f, k);
      assert s - {k} - {y} == s - {y} - {k};
    }
  }

  lemma {:induction false} IntSumExt<K>(s: set<K>, f: K -> int, g: K -> int)
    requires forall k :: k in s ==> f(k) == g(k)
    ensures IntSum(s, f) == IntSum(s, g)
    decreases s
  {
    if s != {} {
      var k :| k in s;
      IntSumRemove(s, f, k);
      IntSumRemove(s, g, k);
      IntSumExt(s - {k}, f, g);
    }
  }

  lemma {:induction false} IntSumNonneg<K>(s: set<K>, f: K -> int)
    requires forall k :: k in s ==> f(k) >= 0
    ensures IntSum(s, f) >= 0
    decreases s
  {
    if s != {} {
      var k :| k in s;
      IntSumRemove(s, f, k);
      IntSumNonneg(s - {k}, f);
    }
  }

  /** Dropping elements whose terms are non-negative never raises the sum. */
  lemma {:induction false} IntSumSubset<K>(s: set<K>, t: set<K>, f: K -> int)
    requires t <= s
    requires forall k :: k in s ==> f(k) >= 0
    ensures IntSum(t, f) <= IntSum(s, f)
    decreases s
  {
    if t != s {
      var k :| k in s && k !in t;
      IntSumRemove(s, f, k);
      IntSumSubset(s - {k}, t, f);
    }
  }

  /** A sum splits over a subset and the rest. */
  lemma {:induction false} IntSumSplit<K>(s: set<K>, a: set<K>, f: K -> int)
    requires a <= s
    ensures IntSum(s, f) == IntSum(a, f) + IntSum(s - a, f)
    decreases a
  {
    if a != {} {
      var k :| k in a;
      IntSumRemove(s, f, k);
      IntSumRemove(a, f, k);
      IntSumSplit(s - {k}, a - {k}, f);
      assert (s - {k}) - (a - {k}) == s - a;
    } else {
      assert s - a == s;
    }
  }

  // ------------------------------------------------------------------
  // Decimal text, as Go's %d prints and strconv.Atoi parses it.
  // ------------------------------------------------------------------

  predicate IsDigit(c: char) { '0' <= c <= '9' }

  predicate AllDigits(s: string) { forall i :: 0 <= i < |s| ==> IsDigit(s[i]) }

  function DigitChar(d: nat): char
    requires d < 10
  {
    (('0' as int) + d) as char
  }

  /** The decimal digits of `n`, most significant first, without leading zeros. */
  function NatToString(n: nat): (s: string)
    ensures |s| >= 1 && AllDigits(s)
    ensures s[0] == '0' ==> n == 0
    decreases n
  {
    if n < 10 then [DigitChar(n)] else NatToString(n / 10) + [DigitChar(n % 10)]
  }

  /** Go's %d on an int: a minus sign then the digits of the magnitude. */
  function IntToString(i: int): string
  {
    if i < 0 then "-" + NatToString(-i) else NatToString(i)
  }

  /** The number a non-empty run of decimal digits denotes. */
  function DigitsValue(s: string): nat
    requires AllDigits(s)
  {
    if s == [] then 0 else DigitsValue(s[..|s| - 1]) * 10 + (s[|s| - 1] as int - '0' as int)
  }

  lemma {:induction false} DigitsRoundTrip(n: nat)
    ensures DigitsValue(NatToString(n)) == n
    decreases n
  {
    if n >= 10 {
      DigitsRoundTrip(n / 10);
      var s := NatToString(n);
      assert s[..|s| - 1] == NatToString(n / 10);
    }
  }

  lemma NatToStringInjective(m: nat, n: nat)
    requires NatToString(m) == NatToString(n)
    ensures m == n
  {
    DigitsRoundTrip(m);
    DigitsRoundTrip(n);
  }

  const MinInt64: int := -0x8000_0000_0000_0000
  const MaxInt64: int := 0x7fff_ffff_ffff_ffff

  /**
   * strconv.Atoi on a 64-bit platform: an optional sign, then at least one
   * decimal digit and nothing else, with a value inside the int range.
   */
  function Atoi(s: string): (r: Option<int>)
    ensures r.Some? ==> MinInt64 <= r.value <= MaxInt64
    ensures r.Some? ==> |s| >= 1 && (IsDigit(s[0]) || s[0] == '-' || s[0] == '+')
  {
    var signed := |s| > 0 && (s[0] == '-' || s[0] == '+');
    var body := if signed then s[1..] else s;
    if body == [] || !AllDigits(body) then None
    else
      var v: int := if signed && s[0] == '-' then -(DigitsValue(body) as int) else DigitsValue(body);
      if MinInt64 <= v <= MaxInt64 then Some(v) else None
  }

  /** What %d prints, Atoi reads back. */
  lemma AtoiRoundTrip(i: int)
    requires MinInt64 <= i <= MaxInt64
    ensures Atoi(IntToString(i)) == Some(i)
  {
    if i < 0 {
      AtoiMinusDigits(NatToString(-i), -i);
    } else {
      AtoiDigits(NatToString(i), i);
    }
  }

  lemma AtoiDigits(t: string, n: nat)
    requires t == NatToString(n) && n <= MaxInt64
    ensures Atoi(t) == Some(n)
  {
    DigitsRoundTrip(n);
    assert IsDigit(t[0]);
  }

  lemma AtoiMinusDigits(t: string, n: nat)
    requires t == NatToString(n) && 0 < n <= -MinInt64
    ensures Atoi("-" + t) == Some(-(n as int))
  {
    DigitsRoundTrip(n);
    var s := "-" + t;
    assert s[0] == '-' && s[1..] == t;
  }
}
