/** How app/admin/review_analytics.py counts reviews and pools the rates of two modules, with
    is_overridden and mae of app/admin/review_comparison.py. Scores are numbers or missing. */
module ReviewAnalytics {
  import opened Wrappers
  import opened BandRounding

  type Key = string

  /** The human scores as stored, and the AI scores as the module's mapper leaves them: all four
      or none. */
  datatype Review = Review(human: map<Key, Option<real>>, band: Option<real>, ai: Option<map<Key, real>>)

  const SPEAKING: seq<Key> := ["fluency", "lexical", "grammar", "pronunciation"]
  const WRITING: seq<Key> := ["task_achievement", "coherence", "lexical_resource", "grammar"]

  predicate AreKeys(keys: seq<Key>) { |keys| == 4 && forall i, j :: 0 <= i < j < 4 ==> keys[i] != keys[j] }

  predicate IsMapped(keys: seq<Key>, review: Review) {
    review.ai.Some? ==> review.ai.value.Keys == set k | k in keys
  }

  function HumanAt(review: Review, k: Key): Option<real> { if k in review.human then review.human[k] else None }

  predicate HumanIsFull(keys: seq<Key>, review: Review) { forall k :: k in keys ==> HumanAt(review, k).Some? }

  /** The stored band, or the one that a full set of scores gives. */
  function HumanOverall(keys: seq<Key>, review: Review): Option<real>
    requires AreKeys(keys)
  {
    if review.band.Some? then review.band
    else if HumanIsFull(keys, review) then
      Some(Overall(HumanAt(review, keys[0]).value, HumanAt(review, keys[1]).value,
                   HumanAt(review, keys[2]).value, HumanAt(review, keys[3]).value))
    else None
  }

  function AiOverall(keys: seq<Key>, review: Review): real
    requires AreKeys(keys) && IsMapped(keys, review) && review.ai.Some?
  {
    var ai := review.ai.value;
    Overall(ai[keys[0]], ai[keys[1]], ai[keys[2]], ai[keys[3]])
  }

  // ---------------------------------------------------------------------------------------
  // What a review counts as, in terms of unrounded differences

  /** Human minus AI overall band, where both are there. */
  function OverallGap(keys: seq<Key>, review: Review): Option<real>
    requires AreKeys(keys) && IsMapped(keys, review)
  {
    if review.ai.None? || HumanOverall(keys, review).None? then None
    else Some(HumanOverall(keys, review).value - AiOverall(keys, review))
  }

  predicate Agrees(keys: seq<Key>, review: Review)
    requires AreKeys(keys) && IsMapped(keys, review)
  {
    OverallGap(keys, review).Some? && Abs(OverallGap(keys, review).value) < 0.75
  }

  predicate Differs(human: map<Key, Option<real>>, ai: map<Key, real>, k: Key) {
    k in human && human[k].Some? && k in ai && Abs(human[k].value - ai[k]) > 0.25
  }

  /** More than a quarter of a band apart on a criterion or overall. */
  predicate Overridden(keys: seq<Key>, review: Review)
    requires AreKeys(keys) && IsMapped(keys, review)
  {
    && review.ai.Some?
    && ((exists k :: k in review.human && Differs(review.human, review.ai.value, k))
        || (OverallGap(keys, review).Some? && Abs(OverallGap(keys, review).value) > 0.25))
  }

  /** The part of it that is about the overall band. */
  predicate OverallOverridden(keys: seq<Key>, review: Review)
    requires AreKeys(keys) && IsMapped(keys, review)
  {
    OverallGap(keys, review).Some? && Abs(OverallGap(keys, review).value) > 0.25
  }

  predicate HasSample(review: Review, k: Key) {
    review.ai.Some? && k in review.ai.value && HumanAt(review, k).Some?
  }

  /** is_overridden, rounding as the source does. */
  method IsOverridden(human: map<Key, Option<real>>, ai: map<Key, real>, humanOverall: Option<real>,
                      aiOverall: Option<real>) returns (r: bool)
    ensures r <==> || (exists k :: k in human && Differs(human, ai, k))
                   || (humanOverall.Some? && aiOverall.Some? && Abs(humanOverall.value - aiOverall.value) > 0.25)
  {
    var todo := human.Keys;
    while todo != {}
      invariant todo <= human.Keys
      invariant forall k :: k in human && k !in todo ==> !Differs(human, ai, k)
    {
      var k :| k in todo;
      todo := todo - {k};
      if human[k].Some? && k in ai {
        var d := DeltaBetween(human[k], Some(ai[k]));
        Thresholds(human[k].value - ai[k]);
        if d.Some? && Abs(d.value) >= THRESHOLD {
          return true;
        }
      }
    }
    var d := DeltaBetween(humanOverall, aiOverall);
    if d.Some? {
      Thresholds(humanOverall.value - aiOverall.value);
    }
    r := d.Some? && Abs(d.value) >= THRESHOLD;
  }

  // ---------------------------------------------------------------------------------------
  // Counting

  predicate AllMapped(keys: seq<Key>, rows: seq<Review>) { forall i :: 0 <= i < |rows| ==> IsMapped(keys, rows[i]) }

  function Count(rows: seq<Review>, p: Review -> bool): (n: nat)
    ensures n <= |rows|
  {
    if rows == [] then 0
    else Count(rows[..|rows| - 1], p) + if p(rows[|rows| - 1]) then 1 else 0
  }

  function HasAi(): Review -> bool { (r: Review) => r.ai.Some? }
  function HasNoAi(): Review -> bool { (r: Review) => r.ai.None? }
  function InAgreement(keys: seq<Key>): Review -> bool
    requires AreKeys(keys)
  {
    (r: Review) => IsMapped(keys, r) && Agrees(keys, r)
  }
  function InOverride(keys: seq<Key>): Review -> bool
    requires AreKeys(keys)
  {
    (r: Review) => IsMapped(keys, r) && Overridden(keys, r)
  }
  function InOverallOverride(keys: seq<Key>): Review -> bool
    requires AreKeys(keys)
  {
    (r: Review) => IsMapped(keys, r) && OverallOverridden(keys, r)
  }
  /** Both in agreement and overridden overall: more than a quarter and less than three quarters apart. */
  function InBetween(keys: seq<Key>): Review -> bool
    requires AreKeys(keys)
  {
    (r: Review) => IsMapped(keys, r) && OverallGap(keys, r).Some? && 0.25 < Abs(OverallGap(keys, r).value) < 0.75
  }
  function HasGap(keys: seq<Key>): Review -> bool
    requires AreKeys(keys)
  {
    (r: Review) => IsMapped(keys, r) && OverallGap(keys, r).Some?
  }
  function Sampled(k: Key): Review -> bool { (r: Review) => HasSample(r, k) }

  function Gaps(keys: seq<Key>, rows: seq<Review>): seq<real>
    requires AreKeys(keys) && AllMapped(keys, rows)
  {
    if rows == [] then []
    else
      var gap := OverallGap(keys, rows[|rows| - 1]);
      Gaps(keys, rows[..|rows| - 1]) + if gap.Some? then [RoundHalf(gap.value)] else []
  }

  function Samples(rows: seq<Review>, k: Key): seq<real> {
    if rows == [] then []
    else
      var r := rows[|rows| - 1];
      Samples(rows[..|rows| - 1], k) + SampleOf(r, k)
  }

  function SampleOf(r: Review, k: Key): seq<real> {
    if HasSample(r, k) then [RoundHalf(HumanAt(r, k).value - r.ai.value[k])] else []
  }

  lemma SamplesOfOneMore(rows: seq<Review>, i: nat, k: Key)
    requires i < |rows|
    ensures Samples(rows[..i + 1], k) == Samples(rows[..i], k) + SampleOf(rows[i], k)
  {
    assert rows[..i + 1][..i] == rows[..i];
  }

  function SumAbs(values: seq<real>): (s: real)
    ensures s >= 0.0
  {
    if values == [] then 0.0 else SumAbs(values[..|values| - 1]) + Abs(values[|values| - 1])
  }

  function Mae(values: seq<real>): Option<real> {
    if values == [] then None else Some(Round3(SumAbs(values) / |values| as real))
  }

  function Rate(part: nat, whole: nat): Option<real> {
    if whole == 0 then None else Some(Round3(part as real / whole as real))
  }

  datatype Summary = Summary(completed: nat, withAi: nat, withoutAi: nat, agreement: Option<real>,
                             overrides: Option<real>, overallMae: Option<real>,
                             criteria: seq<(Key, Option<real>, nat)>)

  function CriterionRow(rows: seq<Review>, k: Key): (Key, Option<real>, nat) {
    (k, Mae(Samples(rows, k)), |Samples(rows, k)|)
  }

  /** The summary in terms of the unrounded differences. */
  predicate IsSummary(s: Summary, keys: seq<Key>, rows: seq<Review>)
    requires AreKeys(keys) && AllMapped(keys, rows)
  {
    && s.completed == |rows|
    && s.withAi == Count(rows, HasAi())
    && s.withoutAi == Count(rows, HasNoAi())
    && s.agreement == Rate(Count(rows, InAgreement(keys)), s.withAi)
    && s.overrides == Rate(Count(rows, InOverride(keys)), s.withAi)
    && s.overallMae == Mae(Gaps(keys, rows))
    && |s.criteria| == |keys|
    && forall i :: 0 <= i < |keys| ==> s.criteria[i] == CriterionRow(rows, keys[i])
  }

  lemma CountOfOneMore(rows: seq<Review>, i: nat, p: Review -> bool)
    requires i < |rows|
    ensures Count(rows[..i + 1], p) == Count(rows[..i], p) + if p(rows[i]) then 1 else 0
  {
    assert rows[..i + 1][..i] == rows[..i];
  }

  /** One row of the loop: its difference, and whether it agrees and is overridden. */
  method Judge(keys: seq<Key>, row: Review) returns (delta: Option<real>, agreed: bool, overridden: bool)
    requires AreKeys(keys) && IsMapped(keys, row) && row.ai.Some?
    ensures delta == if OverallGap(keys, row).Some? then Some(RoundHalf(OverallGap(keys, row).value)) else None
    ensures agreed <==> Agrees(keys, row)
    ensures overridden <==> Overridden(keys, row)
  {
    hide Overall, RoundHalf;
    var human := HumanOverall(keys, row);
    var ai := AiOverall(keys, row);
    delta := DeltaBetween(human, Some(ai));
    agreed := delta.Some? && Abs(delta.value) <= THRESHOLD;
    overridden := IsOverridden(row.human, row.ai.value, human, Some(ai));
    if human.Some? {
      Thresholds(human.value - ai);
    }
  }

  /** _aggregate_module. */
  method Aggregate(keys: seq<Key>, rows: seq<Review>) returns (s: Summary)
    requires AreKeys(keys) && AllMapped(keys, rows)
    ensures IsSummary(s, keys, rows)
  {
    hide OverallGap, Agrees, Overridden, SampleOf, Mae, Rate, RoundHalf, IsMapped, Samples;
    NoRowsNoSamples();
    var withAi, withoutAi, agreed, overridden := 0, 0, 0, 0;
    var deltas: seq<real> := [];
    var samples: seq<seq<real>> := [[], [], [], []];
    for i := 0 to |rows|
      invariant withAi == Count(rows[..i], HasAi()) && withoutAi == Count(rows[..i], HasNoAi())
      invariant agreed == Count(rows[..i], InAgreement(keys)) && overridden == Count(rows[..i], InOverride(keys))
      invariant deltas == Gaps(keys, rows[..i])
      invariant |samples| == 4 && forall k :: 0 <= k < 4 ==> samples[k] == Samples(rows[..i], keys[k])
    {
      var row := rows[i];
      CountOfOneMore(rows, i, HasAi());
      CountOfOneMore(rows, i, HasNoAi());
      CountOfOneMore(rows, i, InAgreement(keys));
      CountOfOneMore(rows, i, InOverride(keys));
      forall k ensures Samples(rows[..i + 1], k) == Samples(rows[..i], k) + SampleOf(row, k) {
        SamplesOfOneMore(rows, i, k);
      }
      assert rows[..i + 1][..i] == rows[..i];
      if row.ai.None? {
        NothingToCompare(keys, row);
        withoutAi := withoutAi + 1;
      } else {
        withAi := withAi + 1;
        var delta, agrees, overrides := Judge(keys, row);
        if delta.Some? {
          deltas := deltas + [delta.value];
        }
        agreed := agreed + if agrees then 1 else 0;
        overridden := overridden + if overrides then 1 else 0;
        var more := Sample(keys, row);
        samples := [samples[0] + more[0], samples[1] + more[1], samples[2] + more[2], samples[3] + more[3]];
      }
    }
    assert rows[..|rows|] == rows;
    s := Summary(|rows|, withAi, withoutAi, Rate(agreed, withAi), Rate(overridden, withAi), Mae(deltas),
                 [(keys[0], Mae(samples[0]), |samples[0]|), (keys[1], Mae(samples[1]), |samples[1]|),
                  (keys[2], Mae(samples[2]), |samples[2]|), (keys[3], Mae(samples[3]), |samples[3]|)]);
  }

  lemma NothingToCompare(keys: seq<Key>, row: Review)
    requires AreKeys(keys) && IsMapped(keys, row) && row.ai.None?
    ensures OverallGap(keys, row).None? && !Agrees(keys, row) && !Overridden(keys, row)
    ensures forall k :: SampleOf(row, k) == []
  {
  }

  lemma NoRowsNoSamples()
    ensures forall k :: Samples([], k) == []
  {
  }

  /** The criterion differences of one row. */
  method Sample(keys: seq<Key>, row: Review) returns (more: seq<seq<real>>)
    requires AreKeys(keys) && IsMapped(keys, row) && row.ai.Some?
    ensures |more| == 4
    ensures forall i :: 0 <= i < 4 ==> more[i] == SampleOf(row, keys[i])
  {
    more := [];
    for i := 0 to 4
      invariant |more| == i
      invariant forall k :: 0 <= k < i ==> more[k] == SampleOf(row, keys[k])
    {
      var d := DeltaBetween(HumanAt(row, keys[i]), Some(row.ai.value[keys[i]]));
      more := more + [if d.Some? then [d.value] else []];
    }
  }

  // ---------------------------------------------------------------------------------------
  // What holds of every list of reviews

  lemma {:induction false} CountsImply(rows: seq<Review>, p: Review -> bool, q: Review -> bool)
    requires forall r :: p(r) ==> q(r)
    ensures Count(rows, p) <= Count(rows, q)
  {
    if rows != [] {
      CountsImply(rows[..|rows| - 1], p, q);
    }
  }

  lemma {:induction false} CountsAdd(rows: seq<Review>, p: Review -> bool, q: Review -> bool)
    ensures Count(rows, p) + Count(rows, q)
         == Count(rows, r => p(r) || q(r)) + Count(rows, r => p(r) && q(r))
  {
    if rows != [] {
      CountsAdd(rows[..|rows| - 1], p, q);
    }
  }

  lemma {:induction false} CountOfNone(rows: seq<Review>, p: Review -> bool)
    requires forall r :: !p(r)
    ensures Count(rows, p) == 0
  {
    if rows != [] {
      CountOfNone(rows[..|rows| - 1], p);
    }
  }

  lemma {:induction false} CountOfAll(rows: seq<Review>, p: Review -> bool)
    requires forall r :: p(r)
    ensures Count(rows, p) == |rows|
  {
    if rows != [] {
      CountOfAll(rows[..|rows| - 1], p);
    }
  }

  lemma {:induction false} GapsAreCounted(keys: seq<Key>, rows: seq<Review>)
    requires AreKeys(keys) && AllMapped(keys, rows)
    ensures |Gaps(keys, rows)| == Count(rows, HasGap(keys))
  {
    hide OverallGap, IsMapped;
    if rows != [] {
      GapsAreCounted(keys, rows[..|rows| - 1]);
    }
  }

  lemma {:induction false} SamplesAreCounted(rows: seq<Review>, k: Key)
    ensures |Samples(rows, k)| == Count(rows, Sampled(k))
  {
    hide HasSample;
    if rows != [] {
      SamplesAreCounted(rows[..|rows| - 1], k);
    }
  }

  /** Every review has an AI score or none. */
  lemma {:induction false} AiOrNot(rows: seq<Review>)
    ensures Count(rows, HasAi()) + Count(rows, HasNoAi()) == |rows|
  {
    CountsAdd(rows, HasAi(), HasNoAi());
    CountOfAll(rows, r => HasAi()(r) || HasNoAi()(r));
    CountOfNone(rows, r => HasAi()(r) && HasNoAi()(r));
  }

  lemma {:induction false} CountsAgree(rows: seq<Review>, p: Review -> bool, q: Review -> bool)
    requires forall r :: p(r) <==> q(r)
    ensures Count(rows, p) == Count(rows, q)
  {
    CountsImply(rows, p, q);
    CountsImply(rows, q, p);
  }

  /** Of the overall differences, those in agreement and those that override add up to all of
      them and once more the ones strictly between the thresholds; with the criteria, that count
      as overrides too, they are at least all of them. */
  lemma {:induction false} AgreedOrOverridden(keys: seq<Key>, rows: seq<Review>)
    requires AreKeys(keys) && AllMapped(keys, rows)
    ensures Count(rows, InAgreement(keys)) + Count(rows, InOverallOverride(keys))
         == |Gaps(keys, rows)| + Count(rows, InBetween(keys))
    ensures Count(rows, InAgreement(keys)) + Count(rows, InOverride(keys)) >= |Gaps(keys, rows)| + Count(rows, InBetween(keys))
    ensures Count(rows, InAgreement(keys)) <= |Gaps(keys, rows)|
  {
    var (agreement, overall) := (InAgreement(keys), InOverallOverride(keys));
    CountsAdd(rows, agreement, overall);
    CountsAgree(rows, HasGap(keys), r => agreement(r) || overall(r));
    CountsAgree(rows, InBetween(keys), r => agreement(r) && overall(r));
    CountsImply(rows, overall, InOverride(keys));
    CountsImply(rows, agreement, HasGap(keys));
    GapsAreCounted(keys, rows);
  }

  /** Every summary adds up: with and without AI make the completed, no sample and no part of a
      rate exceeds the reviews with AI, and the rates are rates. */
  lemma {:induction false} SummaryAddsUp(s: Summary, keys: seq<Key>, rows: seq<Review>)
    requires AreKeys(keys) && AllMapped(keys, rows) && IsSummary(s, keys, rows)
    ensures s.withAi + s.withoutAi == s.completed
    ensures forall i :: 0 <= i < |s.criteria| ==> s.criteria[i].2 <= s.withAi
    ensures Count(rows, InAgreement(keys)) <= s.withAi && Count(rows, InOverride(keys)) <= s.withAi
    ensures |Gaps(keys, rows)| <= s.withAi
    ensures s.agreement.Some? <==> s.withAi > 0
    ensures s.agreement.Some? ==> 0.0 <= s.agreement.value <= 1.0
    ensures s.overrides.Some? <==> s.withAi > 0
    ensures s.overrides.Some? ==> 0.0 <= s.overrides.value <= 1.0
  {
    AiOrNot(rows);
    CountsImply(rows, InAgreement(keys), HasAi());
    CountsImply(rows, InOverride(keys), HasAi());
    CountsImply(rows, HasGap(keys), HasAi());
    GapsAreCounted(keys, rows);
    RateIsRate(Count(rows, InAgreement(keys)), s.withAi);
    RateIsRate(Count(rows, InOverride(keys)), s.withAi);
    forall i | 0 <= i < |s.criteria| ensures s.criteria[i].2 <= s.withAi {
      SamplesAreCounted(rows, keys[i]);
      CountsImply(rows, Sampled(keys[i]), HasAi());
    }
  }

  lemma RateIsRate(part: nat, whole: nat)
    requires part <= whole
    ensures whole > 0 ==> 0.0 <= Rate(part, whole).value <= 1.0
  {
    if whole > 0 {
      ShareIsShare(part, whole);
      Round3KeepsBounds(part as real / whole as real);
    }
  }

  lemma ShareIsShare(part: nat, whole: nat)
    requires part <= whole && whole > 0
    ensures 0.0 <= part as real / whole as real <= 1.0
  {
  }

  // ---------------------------------------------------------------------------------------
  // Pooling two modules

  function OrZero(rate: Option<real>): real { if rate.Some? then rate.value else 0.0 }

  function Times(x: real, p: real): real { x * p }

  /** A mean of two numbers with weights that are not both zero. */
  function Weighted(x: real, p: real, y: real, q: real): real
    requires p >= 0.0 && q >= 0.0 && p + q > 0.0
  {
    (Times(x, p) + Times(y, q)) / (p + q)
  }

  /** weighted_rate. */
  function WeightedRate(a: Option<real>, an: nat, b: Option<real>, bn: nat): Option<real> {
    if an + bn == 0 then None else Some(Round3(Weighted(OrZero(a), an as real, OrZero(b), bn as real)))
  }

  lemma Scaled(low: real, x: real, p: real)
    requires p >= 0.0 && (p > 0.0 ==> low <= x)
    ensures Times(low, p) <= Times(x, p)
  {
  }

  lemma Divided(low: real, sum: real, high: real, total: real)
    requires total > 0.0 && Times(low, total) <= sum <= Times(high, total)
    ensures low <= sum / total <= high
  {
  }

  lemma Spread(x: real, p: real, q: real)
    ensures Times(x, p + q) == Times(x, p) + Times(x, q)
  {
  }

  /** A weighted mean of numbers lies between them. */
  lemma MeanIsBetween(x: real, p: real, y: real, q: real, low: real, high: real)
    requires p >= 0.0 && q >= 0.0 && p + q > 0.0
    requires p > 0.0 ==> low <= x <= high
    requires q > 0.0 ==> low <= y <= high
    ensures low <= Weighted(x, p, y, q) <= high
  {
    hide Times;
    Scaled(low, x, p);
    Scaled(low, y, q);
    Scaled(x, high, p);
    Scaled(y, high, q);
    Spread(low, p, q);
    Spread(high, p, q);
    Divided(low, Times(x, p) + Times(y, q), high, p + q);
  }

  lemma MeanOfDifferences(x: real, p: real, y: real, q: real, u: real, v: real)
    requires p >= 0.0 && q >= 0.0 && p + q > 0.0
    ensures Weighted(x - u, p, y - v, q) == Weighted(x, p, y, q) - Weighted(u, p, v, q)
  {
  }

  /** The unrounded share of a part, or zero of nothing. */
  function Share(part: nat, whole: nat): real { if whole == 0 then 0.0 else part as real / whole as real }

  lemma SharesPool(a: nat, an: nat, b: nat, bn: nat)
    requires a <= an && b <= bn && an + bn > 0
    ensures Weighted(Share(a, an), an as real, Share(b, bn), bn as real) == (a + b) as real / (an + bn) as real
  {
  }

  lemma RateErrs(part: nat, whole: nat)
    requires part <= whole
    ensures 0.0 <= OrZero(Rate(part, whole)) <= 1.0
    ensures -0.0005 <= OrZero(Rate(part, whole)) - Share(part, whole) <= 0.0005
  {
    hide Round3;
    RateIsRate(part, whole);
    if whole > 0 {
      Round3IsNear(Share(part, whole));
    }
  }

  /** Rounding each rate and then the pooled one to three decimals costs at most 0.001 in all. */
  lemma PooledIsNear(a: nat, an: nat, b: nat, bn: nat)
    requires a <= an && b <= bn && an + bn > 0
    ensures var pooled := WeightedRate(Rate(a, an), an, Rate(b, bn), bn).value;
            && 0.0 <= pooled <= 1.0
            && Abs(pooled - (a + b) as real / (an + bn) as real) <= 0.001
  {
    hide Rate, Weighted, Share, Round3;
    var (x, y, p, q) := (OrZero(Rate(a, an)), OrZero(Rate(b, bn)), an as real, bn as real);
    var (u, v) := (Share(a, an), Share(b, bn));
    RateErrs(a, an);
    RateErrs(b, bn);
    MeanIsBetween(x, p, y, q, 0.0, 1.0);
    MeanIsBetween(x - u, p, y - v, q, -0.0005, 0.0005);
    MeanOfDifferences(x, p, y, q, u, v);
    SharesPool(a, an, b, bn);
    Round3IsNear(Weighted(x, p, y, q));
    Round3KeepsBounds(Weighted(x, p, y, q));
  }

  /** And the pooled rate lies between the two it is made of. */
  lemma {:induction false} PooledIsBetween(a: nat, an: nat, b: nat, bn: nat)
    requires a <= an && b <= bn && an > 0 && bn > 0
    ensures var (x, y) := (Rate(a, an).value, Rate(b, bn).value);
            var pooled := WeightedRate(Some(x), an, Some(y), bn).value;
            if x <= y then x <= pooled <= y else y <= pooled <= x
  {
    hide Weighted, Round3;
    var (x, y) := (Rate(a, an).value, Rate(b, bn).value);
    var (low, high) := if x <= y then (x, y) else (y, x);
    var mean := Weighted(x, an as real, y, bn as real);
    MeanIsBetween(x, an as real, y, bn as real, low, high);
    Round3IsMonotone(low, mean);
    Round3IsMonotone(mean, high);
    Round3IsStable(a as real / an as real);
    Round3IsStable(b as real / bn as real);
  }

  /** The rates that get_review_analytics reports for both modules at once. */
  method Pool(speaking: seq<Review>, writing: seq<Review>) returns (completed: nat, withAi: nat, withoutAi: nat,
                                                                    agreement: Option<real>, overrides: Option<real>)
    requires AllMapped(SPEAKING, speaking) && AllMapped(WRITING, writing)
    ensures completed == |speaking| + |writing| && withAi + withoutAi == completed
    ensures withAi == Count(speaking, HasAi()) + Count(writing, HasAi())
    ensures agreement.Some? <==> withAi > 0
    ensures agreement.Some? ==>
      && 0.0 <= agreement.value <= 1.0
      && Abs(agreement.value - (Count(speaking, InAgreement(SPEAKING)) + Count(writing, InAgreement(WRITING))) as real
                               / withAi as real) <= 0.001
    ensures overrides.Some? <==> withAi > 0
    ensures overrides.Some? ==>
      && 0.0 <= overrides.value <= 1.0
      && Abs(overrides.value - (Count(speaking, InOverride(SPEAKING)) + Count(writing, InOverride(WRITING))) as real
                               / withAi as real) <= 0.001
  {
    hide Rate, WeightedRate, Round3, InAgreement, InOverride, IsMapped, Mae, CriterionRow;
    KeysAreKeys();
    var s := Aggregate(SPEAKING, speaking);
    var w := Aggregate(WRITING, writing);
    SummaryAddsUp(s, SPEAKING, speaking);
    SummaryAddsUp(w, WRITING, writing);
    completed, withAi, withoutAi := s.completed + w.completed, s.withAi + w.withAi, s.withoutAi + w.withoutAi;
    agreement := WeightedRate(s.agreement, s.withAi, w.agreement, w.withAi);
    overrides := WeightedRate(s.overrides, s.withAi, w.overrides, w.withAi);
    PoolOrNone(s.agreement, s.withAi, w.agreement, w.withAi);
    PoolOrNone(s.overrides, s.withAi, w.overrides, w.withAi);
    if withAi > 0 {
      PooledIsNear(Count(speaking, InAgreement(SPEAKING)), s.withAi, Count(writing, InAgreement(WRITING)), w.withAi);
      PooledIsNear(Count(speaking, InOverride(SPEAKING)), s.withAi, Count(writing, InOverride(WRITING)), w.withAi);
    }
  }

  lemma PoolOrNone(a: Option<real>, an: nat, b: Option<real>, bn: nat)
    ensures WeightedRate(a, an, b, bn).Some? <==> an + bn > 0
  {
  }

  lemma KeysAreKeys()
    ensures AreKeys(SPEAKING) && AreKeys(WRITING)
  {
  }
}
