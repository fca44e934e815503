// Value types shared by the whole model: the scalars that flow through the
// statistics pipeline (floating-point numbers that may be NaN), the mixed
// string/number fields of a flattened statistics record, and the usual
// Option/Result wrappers for lookups that can fail.
module Values {

  datatype Option<T> = None | Some(value: T)

  datatype Result<T, E> = Ok(value: T) | Err(error: E)

  /** A floating-point statistic: a finite value or NaN. */
  datatype Val = Num(x: real) | NaN

  /** One field of a flattened record: a header string or a numeric statistic. */
  datatype Field = Text(s: string) | Number(v: Val)

  /** NaN becomes 0; every other value is kept. */
  function ZeroNaN(v: Val): (r: real)
    ensures v.Num? ==> r == v.x
    ensures v.NaN? ==> r == 0.0
  {
    match v
    case Num(x) => x
    case NaN => 0.0
  }

  /** The element-wise NaN-to-zero conversion applied to a feature vector. */
  function Sanitize(vs: seq<Val>): (r: seq<real>)
    ensures |r| == |vs|
    ensures forall i :: 0 <= i < |vs| && vs[i].Num? ==> r[i] == vs[i].x
    ensures forall i :: 0 <= i < |vs| && vs[i].NaN? ==> r[i] == 0.0
  {
    seq(|vs|, i requires 0 <= i < |vs| => ZeroNaN(vs[i]))
  }

  /** Sanitizing a concatenation is concatenating the sanitized parts. */
  lemma SanitizeAppend(a: seq<Val>, b: seq<Val>)
    ensures Sanitize(a + b) == Sanitize(a) + Sanitize(b)
  {
    assert forall i :: 0 <= i < |a + b| ==> Sanitize(a + b)[i] == (Sanitize(a) + Sanitize(b))[i];
  }

  /** The four parts of a concatenation, cut back out by position. */
  lemma ConcatParts<T>(a: seq<T>, b: seq<T>, c: seq<T>, d: seq<T>)
    ensures var f, i, j, k := a + b + c + d, |a|, |a| + |b|, |a| + |b| + |c|;
      f[..i] == a && f[i..j] == b && f[j..k] == c && f[k..] == d
  {
    var f := a + b + c + d;
    assert f == ((a + b) + c) + d;
    assert f[..|a + b + c|] == a + b + c;
    assert (a + b + c)[..|a + b|] == a + b;
  }

  /** Lifts finite reals back into Val. */
  function Lift(xs: seq<real>): (r: seq<Val>)
    ensures |r| == |xs|
    ensures forall i :: 0 <= i < |xs| ==> r[i] == Num(xs[i])
  {
    seq(|xs|, i requires 0 <= i < |xs| => Num(xs[i]))
  }

  /** Sanitizing an already sanitized vector changes nothing. */
  lemma SanitizeIdempotent(vs: seq<Val>)
    ensures Sanitize(Lift(Sanitize(vs))) == Sanitize(vs)
  {
  }

  /** A vector of `n` zeros, as created by a fresh `np.zeros(n)`. */
  function Zeros(n: nat): (r: seq<Val>)
    ensures |r| == n
    ensures forall i :: 0 <= i < n ==> r[i] == Num(0.0)
  {
    seq(n, _ => Num(0.0))
  }

  /** The numeric payloads of a run of Number fields. */
  function Payloads(fs: seq<Field>): (r: seq<Val>)
    requires forall i :: 0 <= i < |fs| ==> fs[i].Number?
    ensures |r| == |fs|
    ensures forall i :: 0 <= i < |fs| ==> fs[i] == Number(r[i])
  {
    seq(|fs|, i requires 0 <= i < |fs| => fs[i].v)
  }

  /** Largest element of a non-empty sequence, as Python's `max` returns it. */
  function Max(xs: seq<real>): (m: real)
    requires |xs| > 0
    ensures m in xs
    ensures forall i :: 0 <= i < |xs| ==> xs[i] <= m
  {
    if |xs| == 1 then xs[0]
    else
      var rest := Max(xs[1..]);
      assert forall i :: 1 <= i < |xs| ==> xs[i] == xs[1..][i - 1];
      if xs[0] >= rest then xs[0] else rest
  }

  /** Python's `int()` on a float: truncation toward zero. */
  function Trunc(x: real): (r: int)
    ensures x >= 0.0 ==> r as real <= x < r as real + 1.0
    ensures x < 0.0 ==> r as real - 1.0 < x <= r as real
  {
    if x >= 0.0 then x.Floor else -((-x).Floor)
  }

  /**
   * Positional lookup with Python's negative-index rule, as `DataFrame.iat`
   * performs it; `None` stands for the IndexError raised out of range.
   * This is a primitive, so its contract spells out the definition case by
   * case rather than a property derived from it.
   */
  function PyIndex<T>(xs: seq<T>, i: int): (r: Option<T>)
    ensures r.Some? <==> -|xs| <= i < |xs|
    ensures 0 <= i < |xs| ==> r == Some(xs[i])
    ensures -|xs| <= i < 0 ==> r == Some(xs[|xs| + i])
  {
    if 0 <= i < |xs| then Some(xs[i])
    else if -|xs| <= i < 0 then Some(xs[|xs| + i])
    else None
  }
}
