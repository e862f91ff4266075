/** Half-even rounding of real bands: app/admin/speaking_band.py, app/admin/writing_band.py and
    app/admin/review_comparison.py. Bands are exact reals, not binary floats. */
module BandRounding {
  import opened Wrappers

  function Abs(x: real): (r: real)
    ensures r >= 0.0
  {
    if x < 0.0 then -x else x
  }

  /** The nearest integer, and the even one of two that are equally near. */
  function Round(x: real): (n: int)
    ensures Abs(x - n as real) <= 0.5
    ensures Abs(x - n as real) == 0.5 ==> n % 2 == 0
  {
    var low := x.Floor;
    var rest := x - low as real;
    if rest < 0.5 || (rest == 0.5 && low % 2 == 0) then low else low + 1
  }

  /** No other integer meets that description. */
  lemma RoundIsUnique(x: real, n: int)
    requires Abs(x - n as real) <= 0.5
    requires Abs(x - n as real) == 0.5 ==> n % 2 == 0
    ensures n == Round(x)
  {
  }

  lemma RoundIsMonotone(x: real, y: real)
    requires x <= y
    ensures Round(x) <= Round(y)
  {
  }

  lemma RoundOfInt(n: int)
    ensures Round(n as real) == n
  {
  }

  /** round_half. */
  function RoundHalf(x: real): real { Round(2.0 * x) as real / 2.0 }

  function DeltaBetween(human: Option<real>, ai: Option<real>): Option<real> {
    if human.None? || ai.None? then None else Some(RoundHalf(human.value - ai.value))
  }

  const THRESHOLD: real := 0.5

  /** A rounded difference reaches the threshold exactly above a quarter of a band, and stays
      within it exactly below three quarters. */
  lemma Thresholds(d: real)
    ensures Abs(RoundHalf(d)) >= THRESHOLD <==> Abs(d) > 0.25
    ensures Abs(RoundHalf(d)) <= THRESHOLD <==> Abs(d) < 0.75
    ensures THRESHOLD == 0.5 && Abs(d) == if d < 0.0 then -d else d
  {
  }

  // ---------------------------------------------------------------------------------------
  // The overall band

  function Mean(a: real, b: real, c: real, d: real): real { (a + b + c + d) / 4.0 }

  /** compute_overall_band once all four scores are there. */
  function Overall(a: real, b: real, c: real, d: real): real { RoundHalf(Mean(a, b, c, d)) }

  predicate IsBand(x: real) { 0.0 <= x <= 9.0 }

  predicate IsHalves(n: int, x: real) { 0 <= n <= 18 && x == n as real / 2.0 }

  /** From bands a whole or half band comes out, at most a quarter from the mean, and the even
      number of halves when two are equally near. */
  lemma OverallIsBand(a: real, b: real, c: real, d: real)
    requires IsBand(a) && IsBand(b) && IsBand(c) && IsBand(d)
    ensures exists n :: IsHalves(n, Overall(a, b, c, d))
                     && (Abs(Overall(a, b, c, d) - (a + b + c + d) / 4.0) == 0.25 ==> n % 2 == 0)
    ensures Abs(Overall(a, b, c, d) - (a + b + c + d) / 4.0) <= 0.25
  {
    var x := 2.0 * Mean(a, b, c, d);
    RoundIsMonotone(0.0, x);
    RoundIsMonotone(x, 18.0);
    RoundOfInt(0);
    RoundOfInt(18);
    var n := Round(x);
    assert IsHalves(n, Overall(a, b, c, d));
  }

  /** No score can be raised to lower the band. */
  lemma {:induction false} OverallIsMonotone(a: real, b: real, c: real, d: real, a': real, b': real, c': real, d': real)
    requires a <= a' && b <= b' && c <= c' && d <= d'
    ensures Overall(a, b, c, d) <= Overall(a', b', c', d')
  {
    RoundIsMonotone(2.0 * Mean(a, b, c, d), 2.0 * Mean(a', b', c', d'));
  }

  function Sum(scores: seq<real>): real {
    if scores == [] then 0.0 else Sum(scores[..|scores| - 1]) + scores[|scores| - 1]
  }

  lemma {:induction false} SumWithout(scores: seq<real>, i: nat)
    requires i < |scores|
    ensures Sum(scores) == scores[i] + Sum(scores[..i] + scores[i + 1..])
  {
    var last := |scores| - 1;
    if i == last {
      assert scores[..i] + scores[i + 1..] == scores[..last];
    } else {
      SumWithout(scores[..last], i);
      var less := scores[..i] + scores[i + 1..];
      assert less[..|less| - 1] == scores[..last][..i] + scores[..last][i + 1..];
    }
  }

  /** The order in which the criteria are listed does not matter, for any number of them. */
  lemma {:induction false} SumIsOrderFree(p: seq<real>, q: seq<real>)
    requires multiset(p) == multiset(q)
    ensures Sum(p) == Sum(q)
  {
    if p == [] {
      assert |multiset(q)| == 0;
    } else {
      var (init, x) := (p[..|p| - 1], p[|p| - 1]);
      assert p == init + [x];
      assert x in multiset(q);
      var i :| 0 <= i < |q| && q[i] == x;
      var less := q[..i] + q[i + 1..];
      assert multiset(q) == multiset(q[..i] + [x] + q[i + 1..]) by { assert q == q[..i] + [x] + q[i + 1..]; }
      assert multiset(less) == multiset(q) - multiset{x} == multiset(p) - multiset{x} == multiset(init);
      SumIsOrderFree(init, less);
      SumWithout(q, i);
    }
  }

  lemma OverallIsOrderFree(p: seq<real>, q: seq<real>)
    requires |p| == 4 && multiset(p) == multiset(q)
    ensures |q| == 4 && Overall(p[0], p[1], p[2], p[3]) == Overall(q[0], q[1], q[2], q[3])
  {
    assert |multiset(p)| == |multiset(q)|;
    SumIsOrderFree(p, q);
    SumOfFour(p);
    SumOfFour(q);
  }

  lemma SumOfFour(p: seq<real>)
    requires |p| == 4
    ensures Sum(p) == p[0] + p[1] + p[2] + p[3]
  {
    assert p[..3][..2] == [p[0], p[1]] && p[..3][..2][..1] == [p[0]];
    assert p[..3][2] == p[2];
    assert Sum([p[0]]) == p[0];
    assert Sum([p[0], p[1]]) == p[0] + p[1] by { assert [p[0], p[1]][..1] == [p[0]]; }
  }

  // ---------------------------------------------------------------------------------------
  // Three decimals

  function Round3(x: real): real { Round(1000.0 * x) as real / 1000.0 }

  lemma Round3IsNear(x: real)
    ensures Abs(Round3(x) - x) <= 0.0005
  {
  }

  lemma Round3IsMonotone(x: real, y: real)
    requires x <= y
    ensures Round3(x) <= Round3(y)
  {
    RoundIsMonotone(1000.0 * x, 1000.0 * y);
  }

  lemma Round3IsStable(x: real)
    ensures Round3(Round3(x)) == Round3(x)
  {
    hide Round;
    var n := Round(1000.0 * x);
    RoundOfInt(n);
    assert 1000.0 * Round3(x) == n as real;
  }

  lemma Round3KeepsBounds(x: real)
    requires 0.0 <= x <= 1.0
    ensures 0.0 <= Round3(x) <= 1.0
  {
  }
}
