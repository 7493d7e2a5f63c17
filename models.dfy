/**
 * The records the core reads and writes, after the ORM models of the
 * repository: a user row as a map from column name to value, a region, and
 * the two kinds of catalog item (income method, career path), whose
 * derived-factor columns are updated in place.
 */
module Models {
  import opened Wrappers

  /** A column value as the ORM hands it over. `Other` stands for values the core never inspects (date-times). */
  datatype Value = Null | Int(i: int) | Real(r: real) | Text(s: string) | Other

  /** A row: column name to value. */
  type Record = map<string, Value>

  const F1: string := "f1_motivation"
  const F2: string := "f2_life_experience"
  const F3: string := "f3_persistence"
  const F4: string := "f4_flexibility"
  const F5: string := "f5_emotional_intelligence"
  const F6: string := "f6_health_energy"
  const F7: string := "f7_self_perception"
  const F8: string := "f8_environment_support"
  const F9: string := "f9_resource_access"
  const F10: string := "f10_cultural_economic_environment"

  /** The nine directly rated context factors, in survey order. */
  const DirectFactors: seq<string> := [F1, F2, F3, F4, F5, F6, F7, F8, F9]

  /** The keys of a resolved context-factor map: the nine direct factors and the regional one. */
  const ContextFactorKeys: seq<string> := DirectFactors + [F10]

  /** The regional factor is not one of the nine rated ones. */
  lemma DirectFactorsAreNotRegional()
    ensures forall k :: k in DirectFactors ==> k != F10 && k in ContextFactorKeys
    ensures F10 in ContextFactorKeys
  {
    assert ContextFactorKeys[|DirectFactors|] == F10;
    assert forall i :: 0 <= i < |DirectFactors| ==> DirectFactors[i][2] == '_';
    assert F10[2] == '0';
  }

  /** The columns of the `users` table. */
  const UserColumns: set<string> :=
    {"id", "telegram_id", "username", "first_name", "last_name", "current_income",
     F1, F2, F3, F4, F5, F6, F7, F8, F9, F10, "created_at", "updated_at"}

  predicate IsNumericOrNull(v: Value)
  {
    v.Null? || v.Int? || v.Real?
  }

  /**
   * A row of the `users` table as the schema types it: every column present,
   * integer keys and income, and Float (or NULL) context-factor columns.
   */
  predicate IsUserRow(u: Record)
  {
    && u.Keys == UserColumns
    && "id" in u && "telegram_id" in u && "current_income" in u
    && u["id"].Int? && u["telegram_id"].Int? && u["current_income"].Int?
    && (forall k :: k in ContextFactorKeys ==> k in u && IsNumericOrNull(u[k]))
  }

  /** A region and its configured regional factor (a non-nullable Float column). */
  datatype Region = Region(name: string, f10Value: real)

  /** The raw criteria of an income method: nullable Integer columns. */
  datatype IncomeCriteria = IncomeCriteria(
    speedOfResult: Option<int>,
    difficulty: Option<int>,
    financialInvestment: Option<int>,
    incomePotential: Option<int>,
    flexibleSchedule: Option<int>,
    risks: Option<int>,
    psychologicalComfort: Option<int>,
    impactOnCurrentJob: Option<int>,
    hardSkills: Option<int>,
    softSkills: Option<int>,
    geography: Option<int>,
    specialKnowledge: Option<int>,
    engagement: Option<int>)

  /** An income method; its derived factors F11 and F12 are columns rewritten in place. */
  class IncomeMethod {
    const id: int
    const name: string
    var criteria: IncomeCriteria
    var f11Complexity: Option<real>
    var f12NeededTime: Option<real>

    constructor (id: int, name: string, criteria: IncomeCriteria)
      ensures this.id == id && this.name == name && this.criteria == criteria
      ensures f11Complexity.None? && f12NeededTime.None?
    {
      this.id := id;
      this.name := name;
      this.criteria := criteria;
      f11Complexity := None;
      f12NeededTime := None;
    }
  }

  /** The raw criteria of a career path: nullable Integer columns. */
  datatype CareerCriteria = CareerCriteria(
    hoursToMaster: Option<int>,
    flexibleSchedule: Option<int>,
    directCosts: Option<int>,
    indirectCosts: Option<int>,
    materialAssimilation: Option<int>,
    applicationSpeed: Option<int>,
    geographicalAccessibility: Option<int>,
    technicalRequirements: Option<int>,
    feedbackPresence: Option<int>,
    feedbackFrequency: Option<int>,
    gamification: Option<int>,
    goalAlignment: Option<int>,
    marketDemand: Option<int>,
    probabilityOfQuitting: Option<int>)

  /** A career path; its derived factors F11 and F12 are columns rewritten in place. */
  class CareerPath {
    const id: int
    const name: string
    var criteria: CareerCriteria
    var f11Complexity: Option<real>
    var f12NeededTime: Option<real>

    constructor (id: int, name: string, criteria: CareerCriteria)
      ensures this.id == id && this.name == name && this.criteria == criteria
      ensures f11Complexity.None? && f12NeededTime.None?
    {
      this.id := id;
      this.name := name;
      this.criteria := criteria;
      f11Complexity := None;
      f12NeededTime := None;
    }
  }
}
