/** What the numbers of a review summary are close to, for app/admin/review_analytics.py. */
module ReviewRates {
  import opened Wrappers
  import opened BandRounding
  import opened ReviewAnalytics

  predicate IsHalf(n: int, r: real) { 2.0 * r == n as real }

  /** The nearest whole or half number, and the whole one of two that are equally near. */
  ghost predicate IsNearestHalf(r: real, x: real) {
    && -0.25 <= r - x <= 0.25
    && exists n :: IsHalf(n, r) && (r - x == 0.25 || r - x == -0.25 ==> n % 2 == 0)
  }

  lemma {:induction false} RoundedIsNearest(x: real)
    ensures IsNearestHalf(RoundHalf(x), x)
  {
    var n := Round(2.0 * x);
    assert IsHalf(n, RoundHalf(x));
  }

  /** The human band is the stored one, or else the rounded mean of the four scores when all are
      there; the AI band is that of its four scores. The two are compared when both are there. */
  lemma {:induction false} BandsAre(keys: seq<Key>, review: Review)
    requires AreKeys(keys) && IsMapped(keys, review)
    ensures var scored := forall i :: 0 <= i < 4 ==> keys[i] in review.human && review.human[keys[i]].Some?;
            var human := HumanOverall(keys, review);
            && (human.Some? <==> review.band.Some? || scored)
            && (review.band.Some? ==> human == review.band)
            && (review.band.None? && scored ==>
                  IsNearestHalf(human.value, (review.human[keys[0]].value + review.human[keys[1]].value
                                              + review.human[keys[2]].value + review.human[keys[3]].value) / 4.0))
    ensures review.ai.Some? ==>
      (forall i :: 0 <= i < 4 ==> keys[i] in review.ai.value)
      && IsNearestHalf(AiOverall(keys, review), (review.ai.value[keys[0]] + review.ai.value[keys[1]]
                                                 + review.ai.value[keys[2]] + review.ai.value[keys[3]]) / 4.0)
    ensures OverallGap(keys, review).Some? <==> review.ai.Some? && HumanOverall(keys, review).Some?
    ensures OverallGap(keys, review).Some? ==>
      OverallGap(keys, review).value == HumanOverall(keys, review).value - AiOverall(keys, review)
  {
    hide RoundHalf;
    forall x ensures IsNearestHalf(RoundHalf(x), x) { RoundedIsNearest(x); }
  }

  /** The two scores of a criterion are there and more than a quarter apart. */
  ghost predicate AreApart(review: Review, k: Key) {
    && review.ai.Some? && k in review.human && review.human[k].Some? && k in review.ai.value
    && !(-0.25 <= review.human[k].value - review.ai.value[k] <= 0.25)
  }

  /** A review agrees when the two bands are there and less than three quarters apart; it is
      overridden when they, or the two scores of one criterion, are more than a quarter apart. */
  lemma {:induction false} VerdictsAre(keys: seq<Key>, review: Review)
    requires AreKeys(keys) && IsMapped(keys, review)
    ensures var gap := OverallGap(keys, review);
            && (Agrees(keys, review) <==> gap.Some? && -0.75 < gap.value < 0.75)
            && (Overridden(keys, review) <==>
                  || (gap.Some? && !(-0.25 <= gap.value <= 0.25))
                  || (exists k :: AreApart(review, k)))
  {
    hide OverallGap;
    if review.ai.Some? {
      forall k ensures k in review.human && Differs(review.human, review.ai.value, k) <==> AreApart(review, k) {
      }
    } else {
      NoAiNoGap(keys, review);
    }
  }

  lemma NoAiNoGap(keys: seq<Key>, review: Review)
    requires AreKeys(keys) && IsMapped(keys, review) && review.ai.None?
    ensures OverallGap(keys, review).None?
  {
  }

  /** Each review with both bands adds one overall difference, to the nearest half, and each with
      both scores of a criterion adds one there. */
  lemma {:induction false} ReviewAdds(keys: seq<Key>, rows: seq<Review>, review: Review, k: Key)
    requires AreKeys(keys) && AllMapped(keys, rows) && IsMapped(keys, review)
    ensures AllMapped(keys, rows + [review])
    ensures Gaps(keys, []) == [] && Samples([], k) == []
    ensures var (before, after, gap) := (Gaps(keys, rows), Gaps(keys, rows + [review]), OverallGap(keys, review));
            && (gap.None? ==> after == before)
            && (gap.Some? ==> exists d :: IsNearestHalf(d, gap.value) && after == before + [d])
    ensures var (before, after) := (Samples(rows, k), Samples(rows + [review], k));
            var both := review.ai.Some? && k in review.ai.value && k in review.human && review.human[k].Some?;
            && (!both ==> after == before)
            && (both ==> exists d :: IsNearestHalf(d, review.human[k].value - review.ai.value[k]) && after == before + [d])
  {
    hide RoundHalf, OverallGap;
    forall x ensures IsNearestHalf(RoundHalf(x), x) { RoundedIsNearest(x); }
    var more := rows + [review];
    assert more[..|rows|] == rows;
    GapsGrow(keys, rows, review);
    SamplesOfOneMore(more, |rows|, k);
    assert more[..|rows| + 1] == more;
    assert Samples(rows, k) + [] == Samples(rows, k);
  }

  lemma {:induction false} GapsGrow(keys: seq<Key>, rows: seq<Review>, review: Review)
    requires AreKeys(keys) && AllMapped(keys, rows) && IsMapped(keys, review)
    ensures AllMapped(keys, rows + [review])
    ensures var gap := OverallGap(keys, review);
            Gaps(keys, rows + [review]) == if gap.Some? then Gaps(keys, rows) + [RoundHalf(gap.value)] else Gaps(keys, rows)
  {
    hide RoundHalf, OverallGap;
    assert (rows + [review])[..|rows|] == rows;
    assert Gaps(keys, rows) + [] == Gaps(keys, rows);
  }

  /** A mean error is, to half a thousandth, the sum of the sizes of the differences over their
      number, and there is one exactly if there are differences. */
  lemma {:induction false} MaeIsNear(values: seq<real>, more: seq<real>, x: real)
    ensures Mae(values).Some? <==> values != []
    ensures values != [] ==> -0.0005 <= Mae(values).value - SumAbs(values) / |values| as real <= 0.0005
    ensures SumAbs([]) == 0.0 && SumAbs([x]) == (if x < 0.0 then -x else x)
    ensures SumAbs(values + more) == SumAbs(values) + SumAbs(more)
  {
    hide Round3;
    assert [x][..0] == [];
    assert SumAbs([x]) == SumAbs([]) + Abs(x);
    SumAbsOfParts(values, more);
    if values != [] {
      Round3IsNear(SumAbs(values) / |values| as real);
    }
  }

  lemma {:induction false} SumAbsOfParts(a: seq<real>, b: seq<real>)
    ensures SumAbs(a + b) == SumAbs(a) + SumAbs(b)
  {
    if b == [] {
      assert a + b == a;
    } else {
      SumAbsOfParts(a, b[..|b| - 1]);
      assert (a + b)[..|a + b| - 1] == a + b[..|b| - 1];
    }
  }

  /** A rate is, to half a thousandth, the part over the whole. */
  lemma {:induction false} RateIsNear(part: nat, whole: nat)
    ensures Rate(part, whole).Some? <==> whole > 0
    ensures whole > 0 ==> -0.0005 <= Rate(part, whole).value - part as real / whole as real <= 0.0005
  {
    hide Round3;
    if whole > 0 {
      Round3IsNear(part as real / whole as real);
    }
  }

  /** The reviews that a count takes in. */
  lemma {:induction false} CountsAre(rows: seq<Review>, review: Review, p: Review -> bool)
    ensures Count([], p) == 0
    ensures Count(rows + [review], p) == Count(rows, p) + if p(review) then 1 else 0
    ensures HasAi()(review) <==> review.ai.Some?
    ensures HasNoAi()(review) <==> review.ai.None?
    ensures SPEAKING == ["fluency", "lexical", "grammar", "pronunciation"]
    ensures WRITING == ["task_achievement", "coherence", "lexical_resource", "grammar"]
  {
    var more := rows + [review];
    CountOfOneMore(more, |rows|, p);
    assert more[..|rows| + 1] == more && more[..|rows|] == rows;
  }
}
