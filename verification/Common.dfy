/** Small datatypes and sequence helpers shared by every module. */
module Common {
  datatype Option<+T> = None | Some(value: T)

  /** `m` is `x` truncated toward zero, as Python's `int` does. */
  predicate Truncates(x: real, m: int)
  {
    if x >= 0.0 then m as real <= x < m as real + 1.0 else m as real - 1.0 < x <= m as real
  }

  /** `m` is `fraction` of `whole`, truncated toward zero. */
  predicate IsShare(whole: int, fraction: real, m: int)
  {
    Truncates(whole as real * fraction, m)
  }

  /** Python's `int(limit * fraction)`. */
  function Scale(limit: int, fraction: real): int
  {
    var x := limit as real * fraction;
    if x >= 0.0 then x.Floor else -((-x).Floor)
  }

  function Max(a: int, b: int): int { if a >= b then a else b }

  function Min(a: int, b: int): int { if a <= b then a else b }

  function MaxReal(a: real, b: real): real { if a >= b then a else b }

  /** Python's `sep.join(parts)`. */
  function Join(parts: seq<string>, sep: string): string
  {
    if |parts| == 0 then ""
    else if |parts| == 1 then parts[0]
    else parts[0] + sep + Join(parts[1..], sep)
  }

  lemma TruncatesOnce(x: real, m: int, m': int)
    requires Truncates(x, m) && Truncates(x, m')
    ensures m == m'
  {}

  lemma ShareIsScale(whole: int, fraction: real, m: int)
    ensures IsShare(whole, fraction, m) <==> m == Scale(whole, fraction)
  {
    var x := whole as real * fraction;
    assert Truncates(x, Scale(whole, fraction));
    if IsShare(whole, fraction, m) { TruncatesOnce(x, m, Scale(whole, fraction)); }
  }

  /** What joining means: one part is itself, and two joined stretches have one separator between them. */
  lemma {:induction false} JoinAppend(a: seq<string>, b: seq<string>, sep: string)
    ensures Join([], sep) == ""
    ensures |a| == 1 ==> Join(a, sep) == a[0]
    ensures |a| > 0 && |b| > 0 ==> Join(a + b, sep) == Join(a, sep) + sep + Join(b, sep)
  {
    if |a| > 0 && |b| > 0 {
      assert (a + b)[1..] == a[1..] + b && (a + b)[0] == a[0];
      if |a| > 1 {
        JoinAppend(a[1..], b, sep);
        assert Join(a + b, sep) == a[0] + sep + (Join(a[1..], sep) + sep + Join(b, sep));
      } else {
        assert (a + b)[1..] == b;
      }
    }
  }

  lemma Assoc<T>(a: seq<T>, b: seq<T>, c: seq<T>)
    ensures (a + b) + c == a + (b + c)
  {}

  lemma Pick<T>(s: set<T>) returns (x: T)
    requires s != {}
    ensures x in s
  {
    x :| x in s;
  }

  lemma NonEmpty(s: set<int>)
    requires s != {}
    ensures exists x :: x in s
  {
    var x := Pick(s);
  }
}
