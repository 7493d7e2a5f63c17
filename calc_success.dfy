/**
 * The income-method scoring engine: the context-factor resolver, the
 * derived-factor calculator for income methods and career paths, the
 * success scorer, and the recommender that scores, sorts and cuts the
 * catalog. Numbers are exact reals; `round(x, 2)` is `Rounding.Round2`.
 */
module CalcSuccess {
  import opened Wrappers
  import opened Models
  import opened Rounding
  import opened Ranking
  import Crud

  // ---------------------------------------------------------------------
  // Context-factor resolver
  // ---------------------------------------------------------------------

  /** A numeric column value as a number, with NULL read as 0.0. */
  function FactorValue(v: Value): (r: real)
    requires IsNumericOrNull(v)
    ensures v.Null? ==> r == 0.0
    ensures v.Real? ==> r == v.r
    ensures v.Int? ==> r == v.i as real
  {
    match v
    case Null => 0.0
    case Int(i) => i as real
    case Real(x) => x
  }

  predicate HasDirectFactors(user: Record)
  {
    forall k :: k in DirectFactors ==> k in user && IsNumericOrNull(user[k])
  }

  function RegionFactor(region: Option<Region>): real
  {
    if region.Some? then region.value.f10Value else 0.0
  }

  /** The dictionary `calculate_context_factors` first builds: the nine user columns and the region's factor. */
  function RawFactors(user: Record, region: Option<Region>): (raw: map<string, Value>)
    requires HasDirectFactors(user)
    ensures forall k :: k in raw ==> IsNumericOrNull(raw[k])
  {
    map k | k in ContextFactorKeys :: if k == F10 then Real(RegionFactor(region)) else user[k]
  }

  /**
   * The complete context-factor map of a user: exactly the ten keys F1..F10,
   * F1..F9 copied from the user with NULL as 0.0, F10 from the region or 0.0.
   */
  function ContextFactors(user: Record, region: Option<Region>): (factors: map<string, real>)
    requires HasDirectFactors(user)
    ensures factors.Keys == set k | k in ContextFactorKeys
    ensures forall k :: k in DirectFactors ==> factors[k] == FactorValue(user[k])
    ensures factors[F10] == if region.Some? then region.value.f10Value else 0.0
    ensures ScoredFactors <= factors.Keys
  {
    var raw := RawFactors(user, region);
    DirectFactorsAreNotRegional();
    assert ContextFactorKeys[0] == F1 && ContextFactorKeys[2] == F3 && ContextFactorKeys[3] == F4;
    assert ContextFactorKeys[4] == F5 && ContextFactorKeys[5] == F6 && ContextFactorKeys[6] == F7;
    assert ContextFactorKeys[7] == F8 && ContextFactorKeys[8] == F9;
    map k | k in raw :: FactorValue(raw[k])
  }

  /**
   * `calculate_context_factors`: build the factor dictionary from the user's
   * columns and the region, then replace every NULL by 0.0.
   */
  method CalculateContextFactors(user: Record, region: Option<Region>) returns (factors: map<string, real>)
    requires HasDirectFactors(user)
    ensures factors == ContextFactors(user, region)
  {
    var raw := RawFactors(user, region);
    factors := map[];
    var pending := raw.Keys;
    while pending != {}
      invariant pending <= raw.Keys
      invariant factors.Keys == raw.Keys - pending
      invariant forall k :: k in factors ==> factors[k] == FactorValue(raw[k])
      decreases pending
    {
      var k :| k in pending;
      var v := raw[k];
      if v.Null? {
        factors := factors[k := 0.0];
      } else {
        factors := factors[k := FactorValue(v)];
      }
      pending := pending - {k};
    }
  }

  // ---------------------------------------------------------------------
  // Derived factors F11 (complexity) and F12 (needed time)
  // ---------------------------------------------------------------------

  /** A multiplicative input: the criterion, or 1.0 when it is NULL. */
  function OrOne(c: Option<int>): real
  {
    if c.Some? then c.value as real else 1.0
  }

  function Max(a: real, b: real): real
  {
    if a >= b then a else b
  }

  /** `10.0 / max(x, 1)`: the time contribution of one criterion. */
  function TimeFactor(x: real): (r: real)
    ensures r > 0.0
    ensures x <= 10.0 ==> 1.0 <= r
    ensures r <= 10.0
  {
    TenOverBounds(Max(x, 1.0));
    10.0 / Max(x, 1.0)
  }

  lemma TenOverBounds(m: real)
    requires 1.0 <= m
    ensures 0.0 < 10.0 / m <= 10.0
    ensures m <= 10.0 ==> 1.0 <= 10.0 / m
  {
    var q := 10.0 / m;
    assert q * m == 10.0;
    if m <= 10.0 {
      assert q * 10.0 >= q * m;
    }
  }

  lemma TenOverAntitone(a: real, b: real)
    requires 1.0 <= a <= b
    ensures 10.0 / b <= 10.0 / a
  {
    var qa, qb := 10.0 / a, 10.0 / b;
    assert qa * a == 10.0 && qb * b == 10.0;
    TenOverBounds(b);
  }

  /** F11 of an income method before rounding: difficulty × hard skills × special knowledge. */
  function IncomeComplexity(c: IncomeCriteria): real
  {
    OrOne(c.difficulty) * OrOne(c.hardSkills) * OrOne(c.specialKnowledge)
  }

  /** The product of three time contributions. */
  function TimeProduct(x: real, y: real, z: real): real
  {
    TimeFactor(x) * TimeFactor(y) * TimeFactor(z)
  }

  /** F12 of an income method before rounding. */
  function IncomeNeededTime(c: IncomeCriteria): real
  {
    TimeProduct(OrOne(c.speedOfResult), OrOne(c.flexibleSchedule), OrOne(c.engagement))
  }

  /** F11 of a career path before rounding: material assimilation × application speed. */
  function CareerComplexity(c: CareerCriteria): real
  {
    OrOne(c.materialAssimilation) * OrOne(c.applicationSpeed)
  }

  /** F12 of a career path before rounding: the hours to master. */
  function CareerNeededTime(c: CareerCriteria): real
  {
    OrOne(c.hoursToMaster)
  }

  function OrOneInt(c: Option<int>): int
  {
    if c.Some? then c.value else 1
  }

  /**
   * Complexity is the plain product of the three criteria, missing ones
   * taken as 1, and rounding to hundredths leaves it as it is.
   */
  lemma IncomeComplexityIsWholeProduct(c: IncomeCriteria)
    ensures IncomeComplexity(c) == (OrOneInt(c.difficulty) * OrOneInt(c.hardSkills) * OrOneInt(c.specialKnowledge)) as real
    ensures Round2(IncomeComplexity(c)) == IncomeComplexity(c)
  {
    var d, h, s := OrOneInt(c.difficulty), OrOneInt(c.hardSkills), OrOneInt(c.specialKnowledge);
    assert OrOne(c.difficulty) == d as real && OrOne(c.hardSkills) == h as real && OrOne(c.specialKnowledge) == s as real;
    assert (d as real) * (h as real) == (d * h) as real;
    assert ((d * h) as real) * (s as real) == (d * h * s) as real;
    Round2Integer(d * h * s);
  }

  /** Both derived factors of a career path are whole numbers, unchanged by rounding. */
  lemma CareerDerivedAreWhole(c: CareerCriteria)
    ensures CareerComplexity(c) == (OrOneInt(c.materialAssimilation) * OrOneInt(c.applicationSpeed)) as real
    ensures Round2(CareerComplexity(c)) == CareerComplexity(c)
    ensures CareerNeededTime(c) == OrOneInt(c.hoursToMaster) as real
    ensures Round2(CareerNeededTime(c)) == CareerNeededTime(c)
  {
    var m, a := OrOneInt(c.materialAssimilation), OrOneInt(c.applicationSpeed);
    assert (m as real) * (a as real) == (m * a) as real;
    Round2Integer(m * a);
    Round2Integer(OrOneInt(c.hoursToMaster));
  }

  lemma TimeFactorAntitone(x: real, y: real)
    requires x <= y
    ensures TimeFactor(y) <= TimeFactor(x)
  {
    TenOverAntitone(Max(x, 1.0), Max(y, 1.0));
  }

  lemma ProductOfThreeMonotone(a: real, b: real, c: real, a': real, b': real, c': real)
    requires 0.0 < a' <= a && 0.0 < b' <= b && 0.0 < c' <= c
    ensures a' * b' * c' <= a * b * c
  {
    assert a' * b' <= a * b' <= a * b;
    assert (a' * b') * c' <= (a * b) * c' <= (a * b) * c;
  }

  lemma ProductOfThreeBounds(a: real, b: real, c: real)
    requires 1.0 <= a <= 10.0 && 1.0 <= b <= 10.0 && 1.0 <= c <= 10.0
    ensures 1.0 <= a * b * c <= 1000.0
  {
    ProductOfThreeMonotone(a, b, c, 1.0, 1.0, 1.0);
    ProductOfThreeMonotone(10.0, 10.0, 10.0, a, b, c);
  }

  predicate AtMostTen(c: Option<int>)
  {
    c.None? || c.value <= 10
  }

  /**
   * For speed, flexibility and engagement of at most 10, needed time lies
   * in [1, 1000], before and after rounding.
   */
  lemma IncomeNeededTimeBounds(c: IncomeCriteria)
    requires AtMostTen(c.speedOfResult) && AtMostTen(c.flexibleSchedule) && AtMostTen(c.engagement)
    ensures 1.0 <= IncomeNeededTime(c) <= 1000.0
    ensures 1.0 <= Round2(IncomeNeededTime(c)) <= 1000.0
  {
    TimeProductBounds(OrOne(c.speedOfResult), OrOne(c.flexibleSchedule), OrOne(c.engagement));
    RoundedWithinThousand(IncomeNeededTime(c));
  }

  lemma TimeProductBounds(x: real, y: real, z: real)
    requires x <= 10.0 && y <= 10.0 && z <= 10.0
    ensures 1.0 <= TimeProduct(x, y, z) <= 1000.0
  {
    ProductOfThreeBounds(TimeFactor(x), TimeFactor(y), TimeFactor(z));
  }

  lemma RoundedWithinThousand(t: real)
    requires 1.0 <= t <= 1000.0
    ensures 1.0 <= Round2(t) <= 1000.0
  {
    Round2Monotone(1.0, t);
    Round2Monotone(t, 1000.0);
    Round2Integer(1);
    Round2Integer(1000);
  }

  /**
   * Raising speed of result, flexible schedule or engagement (all else
   * equal) never increases needed time.
   */
  lemma IncomeNeededTimeAntitone(c: IncomeCriteria, d: IncomeCriteria)
    requires OrOne(c.speedOfResult) <= OrOne(d.speedOfResult)
    requires OrOne(c.flexibleSchedule) <= OrOne(d.flexibleSchedule)
    requires OrOne(c.engagement) <= OrOne(d.engagement)
    ensures IncomeNeededTime(d) <= IncomeNeededTime(c)
  {
    TimeProductAntitone(
      OrOne(c.speedOfResult), OrOne(c.flexibleSchedule), OrOne(c.engagement),
      OrOne(d.speedOfResult), OrOne(d.flexibleSchedule), OrOne(d.engagement));
  }

  lemma TimeProductAntitone(x: real, y: real, z: real, x': real, y': real, z': real)
    requires x <= x' && y <= y' && z <= z'
    ensures TimeProduct(x', y', z') <= TimeProduct(x, y, z)
  {
    TimeFactorAntitone(x, x');
    TimeFactorAntitone(y, y');
    TimeFactorAntitone(z, z');
    ProductOfThreeMonotone(TimeFactor(x), TimeFactor(y), TimeFactor(z), TimeFactor(x'), TimeFactor(y'), TimeFactor(z'));
  }

  /**
   * `calculate_income_method_derived_factors`: overwrite F11 and F12 of the
   * method from its raw criteria and hand back the same object.
   */
  method CalculateIncomeMethodDerivedFactors(m: IncomeMethod) returns (r: IncomeMethod)
    modifies m
    ensures r == m
    ensures m.criteria == old(m.criteria)
    ensures m.f11Complexity == Some(Round2(IncomeComplexity(m.criteria)))
    ensures m.f12NeededTime == Some(Round2(IncomeNeededTime(m.criteria)))
  {
    var difficulty := OrOne(m.criteria.difficulty);
    var hardSkills := OrOne(m.criteria.hardSkills);
    var specialKnowledge := OrOne(m.criteria.specialKnowledge);
    var speedOfResult := OrOne(m.criteria.speedOfResult);
    var flexibleSchedule := OrOne(m.criteria.flexibleSchedule);
    var engagement := OrOne(m.criteria.engagement);
    ghost var criteria := m.criteria;
    assert difficulty * hardSkills * specialKnowledge == IncomeComplexity(criteria);
    assert (10.0 / Max(speedOfResult, 1.0)) * (10.0 / Max(flexibleSchedule, 1.0)) * (10.0 / Max(engagement, 1.0)) == IncomeNeededTime(criteria);
    m.f11Complexity := Some(difficulty * hardSkills * specialKnowledge);
    m.f12NeededTime := Some((10.0 / Max(speedOfResult, 1.0)) * (10.0 / Max(flexibleSchedule, 1.0)) * (10.0 / Max(engagement, 1.0)));
    m.f11Complexity := Some(Round2(m.f11Complexity.value));
    m.f12NeededTime := Some(Round2(m.f12NeededTime.value));
    r := m;
  }

  /**
   * `calculate_career_path_derived_factors`: overwrite F11 and F12 of the
   * path from its raw criteria and hand back the same object.
   */
  method CalculateCareerPathDerivedFactors(p: CareerPath) returns (r: CareerPath)
    modifies p
    ensures r == p
    ensures p.criteria == old(p.criteria)
    ensures p.f11Complexity == Some(Round2(CareerComplexity(p.criteria)))
    ensures p.f12NeededTime == Some(Round2(CareerNeededTime(p.criteria)))
  {
    var materialAssimilation := OrOne(p.criteria.materialAssimilation);
    var applicationSpeed := OrOne(p.criteria.applicationSpeed);
    var hoursToMaster := OrOne(p.criteria.hoursToMaster);
    ghost var criteria := p.criteria;
    assert materialAssimilation * applicationSpeed == CareerComplexity(criteria);
    assert hoursToMaster == CareerNeededTime(criteria);
    p.f11Complexity := Some(materialAssimilation * applicationSpeed);
    p.f12NeededTime := Some(hoursToMaster);
    p.f11Complexity := Some(Round2(p.f11Complexity.value));
    p.f12NeededTime := Some(Round2(p.f12NeededTime.value));
    r := p;
  }

  // ---------------------------------------------------------------------
  // Success scorer
  // ---------------------------------------------------------------------

  /** The user factors the scorer reads: all of F1..F10 except F2. */
  const ScoredFactors: set<string> := {F1, F3, F4, F5, F6, F7, F8, F9, F10}

  /** The criteria the scorer reads directly, with no NULL default. */
  predicate HasScorerCriteria(c: IncomeCriteria)
  {
    && c.engagement.Some? && c.difficulty.Some? && c.flexibleSchedule.Some?
    && c.psychologicalComfort.Some? && c.incomePotential.Some? && c.risks.Some?
    && c.financialInvestment.Some? && c.geography.Some? && c.speedOfResult.Some?
    && c.impactOnCurrentJob.Some?
  }

  function Num(c: Option<int>): real
    requires c.Some?
  {
    c.value as real
  }

  /**
   * The scorer's sum collected per input: the constant 70, one half of each
   * scored user factor, and a fixed weight per criterion and derived factor.
   */
  function WeightedSum(uf: map<string, real>, c: IncomeCriteria, f11: real, f12: real): real
    requires ScoredFactors <= uf.Keys
    requires HasScorerCriteria(c)
  {
    70.0
    + 0.5 * (uf[F1] + uf[F3] + uf[F4] + uf[F5] + uf[F6] + uf[F7] + uf[F8] + uf[F9] + uf[F10])
    + 1.0 * Num(c.engagement) - 0.5 * Num(c.difficulty) + 0.5 * Num(c.flexibleSchedule)
    + 0.5 * Num(c.psychologicalComfort) + 1.5 * Num(c.incomePotential) - 1.5 * Num(c.risks)
    - 1.5 * Num(c.financialInvestment) + 0.5 * Num(c.geography) + 1.0 * Num(c.speedOfResult)
    - 1.0 * Num(c.impactOnCurrentJob) - f11 / 20.0 - f12 / 10.0
  }

  /**
   * `calculate_success_score_for_income_method`: nine user/criterion half
   * sums, six intrinsic terms and the two derived-factor bonuses, divided by
   * 21 and rounded. The current income is accepted and not used.
   */
  function SuccessScore(userFactors: map<string, real>, c: IncomeCriteria, f11: real, f12: real, userCurrentIncome: int): (r: real)
    requires ScoredFactors <= userFactors.Keys
    requires HasScorerCriteria(c)
    ensures r == Round2(WeightedSum(userFactors, c, f11, f12) / 21.0)
  {
    var uf := userFactors;
    var compatibility :=
      (uf[F1] + Num(c.engagement)) / 2.0
      + (uf[F3] + Num(c.difficulty)) / 2.0
      + (uf[F4] + Num(c.flexibleSchedule)) / 2.0
      + (uf[F5] + Num(c.psychologicalComfort)) / 2.0
      + (uf[F6] + Num(c.engagement)) / 2.0
      + (uf[F7] + Num(c.incomePotential)) / 2.0
      + (uf[F8] + (10.0 - Num(c.risks))) / 2.0
      + (uf[F9] + (10.0 - Num(c.financialInvestment))) / 2.0
      + (uf[F10] + Num(c.geography)) / 2.0;
    var intrinsic :=
      Num(c.incomePotential) + Num(c.speedOfResult) + (10.0 - Num(c.financialInvestment))
      + (10.0 - Num(c.difficulty)) + (10.0 - Num(c.risks)) + (10.0 - Num(c.impactOnCurrentJob));
    var derived := (200.0 - f11) / 20.0 + (100.0 - f12) / 10.0;
    Round2((compatibility + intrinsic + derived) / 21.0)
  }

  /** Neither the current income nor F2 (life experience) affects the score. */
  lemma ScoreIgnoresIncomeAndLifeExperience(uf: map<string, real>, c: IncomeCriteria, f11: real, f12: real, income: int, otherIncome: int, f2: real)
    requires ScoredFactors <= uf.Keys
    requires HasScorerCriteria(c)
    ensures SuccessScore(uf[F2 := f2], c, f11, f12, otherIncome) == SuccessScore(uf, c, f11, f12, income)
  {
    assert F2 !in ScoredFactors;
    assert WeightedSum(uf[F2 := f2], c, f11, f12) == WeightedSum(uf, c, f11, f12);
  }

  /** Raising any scored user factor (F1, F3..F10) never lowers the score. */
  lemma UserFactorsNeverLowerScore(uf: map<string, real>, vf: map<string, real>, c: IncomeCriteria, f11: real, f12: real, income: int)
    requires ScoredFactors <= uf.Keys && ScoredFactors <= vf.Keys
    requires forall k :: k in ScoredFactors ==> uf[k] <= vf[k]
    requires HasScorerCriteria(c)
    ensures SuccessScore(uf, c, f11, f12, income) <= SuccessScore(vf, c, f11, f12, income)
  {
    assert WeightedSum(uf, c, f11, f12) <= WeightedSum(vf, c, f11, f12);
    Round2Monotone(WeightedSum(uf, c, f11, f12) / 21.0, WeightedSum(vf, c, f11, f12) / 21.0);
  }

  /** Raising income potential (all else equal) never lowers the score. */
  lemma IncomePotentialNeverLowersScore(uf: map<string, real>, c: IncomeCriteria, v: int, f11: real, f12: real, income: int)
    requires ScoredFactors <= uf.Keys
    requires HasScorerCriteria(c)
    requires c.incomePotential.value <= v
    ensures SuccessScore(uf, c, f11, f12, income) <= SuccessScore(uf, c.(incomePotential := Some(v)), f11, f12, income)
  {
    var d := c.(incomePotential := Some(v));
    assert WeightedSum(uf, c, f11, f12) <= WeightedSum(uf, d, f11, f12);
    Round2Monotone(WeightedSum(uf, c, f11, f12) / 21.0, WeightedSum(uf, d, f11, f12) / 21.0);
  }

  /**
   * Raising risks, financial investment or impact on the current job (all
   * else equal) never raises the score.
   */
  lemma CostsNeverRaiseScore(uf: map<string, real>, c: IncomeCriteria, d: IncomeCriteria, f11: real, f12: real, income: int)
    requires ScoredFactors <= uf.Keys
    requires HasScorerCriteria(c) && HasScorerCriteria(d)
    requires d == c.(risks := d.risks, financialInvestment := d.financialInvestment, impactOnCurrentJob := d.impactOnCurrentJob)
    requires Num(c.risks) <= Num(d.risks)
    requires Num(c.financialInvestment) <= Num(d.financialInvestment)
    requires Num(c.impactOnCurrentJob) <= Num(d.impactOnCurrentJob)
    ensures SuccessScore(uf, d, f11, f12, income) <= SuccessScore(uf, c, f11, f12, income)
  {
    assert WeightedSum(uf, d, f11, f12) <= WeightedSum(uf, c, f11, f12);
    Round2Monotone(WeightedSum(uf, d, f11, f12) / 21.0, WeightedSum(uf, c, f11, f12) / 21.0);
  }

  /** Higher complexity or needed time never raises the score. */
  lemma DerivedFactorsNeverRaiseScore(uf: map<string, real>, c: IncomeCriteria, f11: real, f12: real, g11: real, g12: real, income: int)
    requires ScoredFactors <= uf.Keys
    requires HasScorerCriteria(c)
    requires f11 <= g11 && f12 <= g12
    ensures SuccessScore(uf, c, g11, g12, income) <= SuccessScore(uf, c, f11, f12, income)
  {
    Round2Monotone(WeightedSum(uf, c, g11, g12) / 21.0, WeightedSum(uf, c, f11, f12) / 21.0);
  }

  const AllZeroFactors: map<string, real> :=
    map[F1 := 0.0, F2 := 0.0, F3 := 0.0, F4 := 0.0, F5 := 0.0, F6 := 0.0, F7 := 0.0, F8 := 0.0, F9 := 0.0, F10 := 0.0]

  /** The worst method in the 0..10 range, with complexity 1000 and needed time 1000. */
  const WorstCase: IncomeCriteria :=
    IncomeCriteria(Some(0), Some(10), Some(10), Some(0), Some(0), Some(10), Some(0), Some(10), Some(10), Some(0), Some(0), Some(10), Some(0))

  /** The score is not bounded below by zero: large complexity drives it negative. */
  lemma ScoreCanBeNegative()
    ensures ScoredFactors <= AllZeroFactors.Keys && HasScorerCriteria(WorstCase)
    ensures Round2(IncomeComplexity(WorstCase)) == 1000.0 && Round2(IncomeNeededTime(WorstCase)) == 1000.0
    ensures SuccessScore(AllZeroFactors, WorstCase, 1000.0, 1000.0, 0) < 0.0
  {
    assert IncomeComplexity(WorstCase) == 1000.0;
    Round2Integer(1000);
    assert TimeFactor(0.0) == 10.0;
    assert IncomeNeededTime(WorstCase) == 1000.0;
    assert WeightedSum(AllZeroFactors, WorstCase, 1000.0, 1000.0) == -125.0;
  }

  // ---------------------------------------------------------------------
  // Recommender
  // ---------------------------------------------------------------------

  /** The score a method gets in the recommender: derived factors recomputed, then scored. */
  function RecommenderScore(uf: map<string, real>, c: IncomeCriteria, income: int): real
    requires ScoredFactors <= uf.Keys
    requires HasScorerCriteria(c)
  {
    SuccessScore(uf, c, Round2(IncomeComplexity(c)), Round2(IncomeNeededTime(c)), income)
  }

  /**
   * In the recommender, a quicker, more flexible or more engaging method
   * (all else equal) never scores lower: each raises its own terms and
   * lowers the needed time.
   */
  lemma QuickerMethodsNeverScoreLower(uf: map<string, real>, c: IncomeCriteria, d: IncomeCriteria, income: int)
    requires ScoredFactors <= uf.Keys
    requires HasScorerCriteria(c) && HasScorerCriteria(d)
    requires d == c.(speedOfResult := d.speedOfResult, flexibleSchedule := d.flexibleSchedule, engagement := d.engagement)
    requires Num(c.speedOfResult) <= Num(d.speedOfResult)
    requires Num(c.flexibleSchedule) <= Num(d.flexibleSchedule)
    requires Num(c.engagement) <= Num(d.engagement)
    ensures RecommenderScore(uf, c, income) <= RecommenderScore(uf, d, income)
  {
    IncomeNeededTimeAntitone(c, d);
    var tc, td := Round2(IncomeNeededTime(c)), Round2(IncomeNeededTime(d));
    Round2Monotone(IncomeNeededTime(d), IncomeNeededTime(c));
    assert IncomeComplexity(c) == IncomeComplexity(d);
    var k := Round2(IncomeComplexity(c));
    QuickerWeightedSum(uf, c, d, k, tc, td);
    Round2Monotone(WeightedSum(uf, c, k, tc) / 21.0, WeightedSum(uf, d, k, td) / 21.0);
  }

  lemma QuickerWeightedSum(uf: map<string, real>, c: IncomeCriteria, d: IncomeCriteria, k: real, tc: real, td: real)
    requires ScoredFactors <= uf.Keys
    requires HasScorerCriteria(c) && HasScorerCriteria(d)
    requires d == c.(speedOfResult := d.speedOfResult, flexibleSchedule := d.flexibleSchedule, engagement := d.engagement)
    requires Num(c.speedOfResult) <= Num(d.speedOfResult)
    requires Num(c.flexibleSchedule) <= Num(d.flexibleSchedule)
    requires Num(c.engagement) <= Num(d.engagement)
    requires td <= tc
    ensures WeightedSum(uf, c, k, tc) <= WeightedSum(uf, d, k, td)
  {
  }

  /** Every catalog method paired with its recommender score, in catalog order. */
  function ScoredCatalog(catalog: seq<IncomeMethod>, uf: map<string, real>, income: int): (r: seq<(IncomeMethod, real)>)
    reads catalog
    requires ScoredFactors <= uf.Keys
    requires forall i :: 0 <= i < |catalog| ==> HasScorerCriteria(catalog[i].criteria)
    ensures |r| == |catalog|
    ensures forall i :: 0 <= i < |r| ==> r[i] == (catalog[i], RecommenderScore(uf, catalog[i].criteria, income))
  {
    if |catalog| == 0 then []
    else
      ScoredCatalog(catalog[..|catalog| - 1], uf, income)
      + [(catalog[|catalog| - 1], RecommenderScore(uf, catalog[|catalog| - 1].criteria, income))]
  }

  lemma UserRowHasDirectFactors(user: Record)
    requires IsUserRow(user)
    ensures HasDirectFactors(user)
  {
    Crud.ContextFactorKeysAreColumns();
  }

  /**
   * The loop of `get_recommended_income_methods`: recompute each method's
   * derived factors in place and pair the method with its score.
   */
  method ScoreCatalog(catalog: seq<IncomeMethod>, userFactors: map<string, real>, income: int)
    returns (scoredMethods: seq<(IncomeMethod, real)>)
    requires ScoredFactors <= userFactors.Keys
    requires forall i :: 0 <= i < |catalog| ==> HasScorerCriteria(catalog[i].criteria)
    modifies catalog
    ensures forall i :: 0 <= i < |catalog| ==>
      && catalog[i].criteria == old(catalog[i].criteria)
      && catalog[i].f11Complexity == Some(Round2(IncomeComplexity(catalog[i].criteria)))
      && catalog[i].f12NeededTime == Some(Round2(IncomeNeededTime(catalog[i].criteria)))
    ensures scoredMethods == ScoredCatalog(catalog, userFactors, income)
  {
    scoredMethods := [];
    ghost var criteria := seq(|catalog|, j requires 0 <= j < |catalog| reads catalog => catalog[j].criteria);
    var i := 0;
    while i < |catalog|
      invariant 0 <= i <= |catalog|
      invariant forall j :: 0 <= j < |catalog| ==> catalog[j].criteria == criteria[j]
      invariant forall j :: 0 <= j < i ==>
        && catalog[j].f11Complexity == Some(Round2(IncomeComplexity(criteria[j])))
        && catalog[j].f12NeededTime == Some(Round2(IncomeNeededTime(criteria[j])))
      invariant |scoredMethods| == i
      invariant forall j :: 0 <= j < i ==>
        scoredMethods[j] == (catalog[j], RecommenderScore(userFactors, criteria[j], income))
    {
      var updated := CalculateIncomeMethodDerivedFactors(catalog[i]);
      var score := SuccessScore(userFactors, updated.criteria, updated.f11Complexity.value, updated.f12NeededTime.value, income);
      scoredMethods := scoredMethods + [(updated, score)];
      i := i + 1;
    }
  }

  /**
   * `get_recommended_income_methods`: for a known user, resolve the context
   * factors (no region), recompute every method's derived factors, score
   * each, sort by descending score and keep the first `topN`. An unknown
   * user gives [] and touches nothing.
   */
  method GetRecommendedIncomeMethods(users: Crud.UserTable, catalog: seq<IncomeMethod>, userTelegramId: int, topN: int)
    returns (recommended: seq<(IncomeMethod, real)>)
    requires users.Valid()
    requires forall i :: 0 <= i < |catalog| ==> HasScorerCriteria(catalog[i].criteria)
    modifies catalog
    ensures Crud.FindByTelegramId(users.rows, userTelegramId).None? ==>
      recommended == [] && forall i :: 0 <= i < |catalog| ==> unchanged(catalog[i])
    ensures Crud.FindByTelegramId(users.rows, userTelegramId).Some? ==>
      var user := users.rows[Crud.FindByTelegramId(users.rows, userTelegramId).value];
      && IsUserRow(user)
      && HasDirectFactors(user)
      && (forall i :: 0 <= i < |catalog| ==>
            && catalog[i].criteria == old(catalog[i].criteria)
            && catalog[i].f11Complexity == Some(Round2(IncomeComplexity(catalog[i].criteria)))
            && catalog[i].f12NeededTime == Some(Round2(IncomeNeededTime(catalog[i].criteria))))
      && recommended == TopN(ScoredCatalog(catalog, ContextFactors(user, None), user["current_income"].i), topN)
  {
    var found := Crud.FindByTelegramId(users.rows, userTelegramId);
    if found.None? {
      return [];
    }
    var user := users.rows[found.value];
    UserRowHasDirectFactors(user);
    recommended := RecommendForUser(user, catalog, topN);
  }

  /** The part of `get_recommended_income_methods` after the user has been found. */
  method RecommendForUser(user: Record, catalog: seq<IncomeMethod>, topN: int)
    returns (recommended: seq<(IncomeMethod, real)>)
    requires HasDirectFactors(user) && "current_income" in user && user["current_income"].Int?
    requires forall i :: 0 <= i < |catalog| ==> HasScorerCriteria(catalog[i].criteria)
    modifies catalog
    ensures forall i :: 0 <= i < |catalog| ==>
      && catalog[i].criteria == old(catalog[i].criteria)
      && catalog[i].f11Complexity == Some(Round2(IncomeComplexity(catalog[i].criteria)))
      && catalog[i].f12NeededTime == Some(Round2(IncomeNeededTime(catalog[i].criteria)))
    ensures recommended == TopN(ScoredCatalog(catalog, ContextFactors(user, None), user["current_income"].i), topN)
  {
    var userFactors := CalculateContextFactors(user, None);
    var income := user["current_income"].i;
    var scoredMethods := ScoreCatalog(catalog, userFactors, income);
    recommended := TopN(scoredMethods, topN);
  }

  /**
   * What a recommendation list satisfies: at most `topN` entries
   * (`min(topN, |catalog|)` for a non-negative `topN`), no method twice
   * when the catalog has no repeats, scores non-increasing, ties in catalog
   * order, and no catalog method left out scoring above one that is kept.
   */
  lemma RecommendationProperties(catalog: seq<IncomeMethod>, uf: map<string, real>, income: int, topN: int)
    requires ScoredFactors <= uf.Keys
    requires forall i :: 0 <= i < |catalog| ==> HasScorerCriteria(catalog[i].criteria)
    ensures var r := TopN(ScoredCatalog(catalog, uf, income), topN);
      && (topN >= 0 ==> |r| == if topN < |catalog| then topN else |catalog|)
      && NonIncreasing(r)
      && ((forall i, j :: 0 <= i < j < |catalog| ==> catalog[i] != catalog[j]) ==> DistinctItems(r))
      && (forall v :: WithScore(r, v) <= WithScore(ScoredCatalog(catalog, uf, income), v))
      && (forall i, k :: 0 <= i < |catalog| && 0 <= k < |r|
            && (catalog[i], RecommenderScore(uf, catalog[i].criteria, income)) !in r
            ==> RecommenderScore(uf, catalog[i].criteria, income) <= r[k].1)
  {
    TopNProperties(ScoredCatalog(catalog, uf, income), topN);
    RecommendationsAreBest(catalog, uf, income, topN);
  }

  /** The recommendations are the best: a catalog method left out never scores above one kept. */
  lemma RecommendationsAreBest(catalog: seq<IncomeMethod>, uf: map<string, real>, income: int, topN: int)
    requires ScoredFactors <= uf.Keys
    requires forall i :: 0 <= i < |catalog| ==> HasScorerCriteria(catalog[i].criteria)
    ensures var r := TopN(ScoredCatalog(catalog, uf, income), topN);
      forall i, k :: 0 <= i < |catalog| && 0 <= k < |r|
        && (catalog[i], RecommenderScore(uf, catalog[i].criteria, income)) !in r
        ==> RecommenderScore(uf, catalog[i].criteria, income) <= r[k].1
  {
    var entries := ScoredCatalog(catalog, uf, income);
    TopNSelects(entries, topN);
    var r := TopN(entries, topN);
    forall i, k | 0 <= i < |catalog| && 0 <= k < |r| && entries[i] !in r
      ensures entries[i].1 <= r[k].1
    {
      assert entries[i] in multiset(entries);
      assert entries[i] !in multiset(r);
      assert r[k] in r;
    }
  }

  /** Each recommended entry is a catalog method paired with its recommender score. */
  lemma RecommendationsFromCatalog(catalog: seq<IncomeMethod>, uf: map<string, real>, income: int, topN: int)
    requires ScoredFactors <= uf.Keys
    requires forall i :: 0 <= i < |catalog| ==> HasScorerCriteria(catalog[i].criteria)
    ensures var r := TopN(ScoredCatalog(catalog, uf, income), topN);
      forall k :: 0 <= k < |r| ==> exists i :: 0 <= i < |catalog| && r[k] == (catalog[i], RecommenderScore(uf, catalog[i].criteria, income))
  {
    var entries := ScoredCatalog(catalog, uf, income);
    TopNProperties(entries, topN);
    var r := TopN(entries, topN);
    forall k | 0 <= k < |r|
      ensures exists i :: 0 <= i < |catalog| && r[k] == (catalog[i], RecommenderScore(uf, catalog[i].criteria, income))
    {
      assert r[k] in r;
      ScoredCatalogEntry(catalog, uf, income, r[k]);
    }
  }

  /** Every entry of the scored catalog is a catalog method with its score. */
  lemma ScoredCatalogEntry(catalog: seq<IncomeMethod>, uf: map<string, real>, income: int, e: (IncomeMethod, real))
    requires ScoredFactors <= uf.Keys
    requires forall i :: 0 <= i < |catalog| ==> HasScorerCriteria(catalog[i].criteria)
    requires e in ScoredCatalog(catalog, uf, income)
    ensures exists i :: 0 <= i < |catalog| && e == (catalog[i], RecommenderScore(uf, catalog[i].criteria, income))
  {
    var entries := ScoredCatalog(catalog, uf, income);
    var i :| 0 <= i < |entries| && entries[i] == e;
    assert entries[i] == (catalog[i], RecommenderScore(uf, catalog[i].criteria, income));
  }

}
