/**
 * The backend's supplier metrics (backend/services/supplier_metrics.py): four
 * drawn metrics combine into an overall score weighted 30/30/25/15, and suppliers
 * rank by that score, best first.
 */
module SupplierMetrics {
  import opened Wrappers
  import opened Numeric
  import Sorting

  /** The random draws: `randint(5, 25)` and three `uniform` values. */
  datatype MetricsDraw = MetricsDraw(experience: int, quality: real, delivery: real, price: real)

  predicate ValidMetricsDraw(d: MetricsDraw) {
    && 5 <= d.experience <= 25
    && 3.5 <= d.quality <= 5.0
    && 75.0 <= d.delivery <= 98.0
    && 60.0 <= d.price <= 95.0
  }

  datatype Metrics = Metrics(
    experienceYears: int,
    qualityRating: real,
    deliveryReliability: real,
    priceCompetitiveness: real,
    overallScore: real)

  /** Experience counts in full from 25 years on. */
  function ExperienceTerm(experienceYears: real): (e: real)
    ensures experienceYears >= 0.0 ==> 0.0 <= e <= 100.0
  {
    Min(experienceYears / 25.0 * 100.0, 100.0)
  }

  /**
   * The weighted overall score; the weights sum to 1, so it stays within [0, 100]
   * when the rating is within [0, 5], the percentages within [0, 100] and the
   * experience is not negative.
   */
  function OverallScore(quality: real, delivery: real, price: real, experienceYears: real): (s: real)
    ensures 0.0 <= quality <= 5.0 && 0.0 <= delivery <= 100.0 && 0.0 <= price <= 100.0 && experienceYears >= 0.0
            ==> 0.0 <= s <= 100.0
  {
    (quality / 5.0 * 100.0) * 0.3 + delivery * 0.3 + price * 0.25 + ExperienceTerm(experienceYears) * 0.15
  }

  /** Any experience of 25 years or more scores as 25 years do. */
  lemma ExperienceCapped(quality: real, delivery: real, price: real, experienceYears: real)
    requires experienceYears >= 25.0
    ensures OverallScore(quality, delivery, price, experienceYears) == OverallScore(quality, delivery, price, 25.0)
  {
  }

  /** More of any metric never lowers the overall score. */
  lemma OverallScoreMonotone(q: real, d: real, p: real, e: real, q': real, d': real, p': real, e': real)
    requires q <= q' && d <= d' && p <= p' && e <= e'
    ensures OverallScore(q, d, p, e) <= OverallScore(q', d', p', e')
  {
  }

  /**
   * `calculate_supplier_metrics`: rating and percentages rounded to one place,
   * the overall score computed from the rounded values and rounded in turn; with
   * draws in their ranges the rounded metrics stay in those ranges and the overall
   * score lies between 61.5 and 98.2.
   */
  function CalculateMetrics(d: MetricsDraw): (m: Metrics)
    requires ValidMetricsDraw(d)
    ensures m.experienceYears == d.experience
    ensures 3.5 <= m.qualityRating <= 5.0
    ensures 75.0 <= m.deliveryReliability <= 98.0
    ensures 60.0 <= m.priceCompetitiveness <= 95.0
    ensures m.overallScore == Round1(OverallScore(m.qualityRating, m.deliveryReliability, m.priceCompetitiveness,
                                                  m.experienceYears as real))
    ensures 61.5 <= m.overallScore <= 98.2
  {
    var quality := Round1(d.quality);
    var delivery := Round1(d.delivery);
    var price := Round1(d.price);
    RoundedWithin(d.quality, 35, 50);
    RoundedWithin(d.delivery, 750, 980);
    RoundedWithin(d.price, 600, 950);
    var overall := OverallScore(quality, delivery, price, d.experience as real);
    OverallScoreMonotone(3.5, 75.0, 60.0, 5.0, quality, delivery, price, d.experience as real);
    OverallScoreMonotone(quality, delivery, price, d.experience as real, 5.0, 98.0, 95.0, 25.0);
    OverallBounds();
    Round1Monotone(61.5, overall);
    Round1Monotone(overall, 98.15);
    Round1Tenths(615);
    Metrics(d.experience, quality, delivery, price, Round1(overall))
  }

  /** Rounding to tenths keeps a value between two whole tenths. */
  lemma RoundedWithin(x: real, lo: int, hi: int)
    requires lo as real / 10.0 <= x <= hi as real / 10.0
    ensures lo as real / 10.0 <= Round1(x) <= hi as real / 10.0
  {
    Round1Monotone(lo as real / 10.0, x);
    Round1Monotone(x, hi as real / 10.0);
    Round1Tenths(lo);
    Round1Tenths(hi);
  }

  /** The overall score at the lowest and the highest draws, and its rounding. */
  lemma OverallBounds()
    ensures OverallScore(3.5, 75.0, 60.0, 5.0) == 61.5
    ensures OverallScore(5.0, 98.0, 95.0, 25.0) == 98.15
    ensures Round1(98.15) == 98.2
  {
    assert (98.15 * 10.0 + 0.5).Floor == 982;
  }

  /** A supplier record as `rank_suppliers` sees it: the overall score may be missing. */
  datatype ScoredSupplier = ScoredSupplier(name: string, overallScore: Option<real>)

  /** `x.get("overall_score", 0)`. */
  function ScoreOrZero(s: ScoredSupplier): real {
    if s.overallScore.Some? then s.overallScore.value else 0.0
  }

  /**
   * `rank_suppliers`: a permutation of the input ordered by non-increasing score,
   * a missing score counting as 0.
   */
  function RankSuppliers(suppliers: seq<ScoredSupplier>): (ranked: seq<ScoredSupplier>)
    ensures Sorting.SortedDesc(ranked, ScoreOrZero)
    ensures multiset(ranked) == multiset(suppliers)
  {
    Sorting.SortDesc(suppliers, ScoreOrZero)
  }

  /** The ranking is stable: suppliers with equal scores keep their input order. */
  lemma RankSuppliersStable(suppliers: seq<ScoredSupplier>, score: real)
    ensures Sorting.WithKey(RankSuppliers(suppliers), ScoreOrZero, score)
            == Sorting.WithKey(suppliers, ScoreOrZero, score)
  {
    Sorting.SortDescStable(suppliers, ScoreOrZero, score);
  }
}
