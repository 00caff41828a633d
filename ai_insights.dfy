/**
 * The rule-based risk and insight engine: budget risk per project, spending
 * trend, category concentration and portfolio insights with a ranked list
 * of recommendations and a health score; a moving-average cash-flow
 * forecast; and stock risk over the inventory. Message texts, timestamps
 * and the catch-and-log error paths are not part of the model; the random
 * variances and the current day of the forecast are parameters.
 */
module AiInsights {
  import opened Seqs
  import opened Sorting
  import opened Records
  import opened Grouping
  import opened BudgetService
  import Inventory

  // ---------------------------------------------------------------- records

  /** A budget risk: its level and impact drive the ranking. */
  datatype Risk = Risk(level: string, project: string, percentUsed: real, impact: string, probability: string)

  /** A recommendation; `items` names the stock items it is about, if any. */
  datatype Recommendation = Recommendation(project: Option<string>, action: string, priority: string, items: seq<string>)

  datatype Insight =
    | Trend(project: string, overrunPercent: real, confidence: nat)
    | CategoryShare(project: string, category: string, amount: real)
    | Portfolio(totalBudget: real, totalSpent: real, remaining: real, utilization: real)

  // ----------------------------------------------------------------- scores

  function LevelWeight(level: string): nat
  {
    if level == "critical" then 3 else if level == "warning" then 2 else if level == "low" then 1 else 0
  }

  /** An unknown impact weighs 1, not 0 (`impactScore[risk.impact] || 1`). */
  function ImpactWeight(impact: string): nat
  {
    if impact == "high" then 3 else if impact == "medium" then 2 else if impact == "low" then 1 else 1
  }

  /**
   * `getRiskScore(risk)`: level weight times impact weight. A risk of
   * unknown level scores 0 whatever its impact, and only a critical risk of
   * high impact reaches the top score 9.
   */
  function RiskScore(r: Risk): (s: int)
    ensures 0 <= s <= 9
    ensures s == 0 <==> r.level != "critical" && r.level != "warning" && r.level != "low"
    ensures s == 9 <==> r.level == "critical" && r.impact == "high"
  {
    LevelWeight(r.level) * ImpactWeight(r.impact)
  }

  /** `getPriorityScore(priority)`: high 3, medium 2, low 1, anything else 0. */
  function PriorityScore(priority: string): (s: nat)
    ensures s <= 3
    ensures s == 0 <==> priority != "high" && priority != "medium" && priority != "low"
  {
    if priority == "high" then 3 else if priority == "medium" then 2 else if priority == "low" then 1 else 0
  }

  function PriorityOf(r: Recommendation): int { PriorityScore(r.priority) }

  function Max(a: real, b: real): real { if a >= b then a else b }
  function Min(a: real, b: real): real { if a <= b then a else b }

  /**
   * `calculateHealthScore(totalBudget, totalSpent, riskCount)`: what is
   * left of the budget in percent, less 15 points per risk, kept within
   * [0, 100].
   */
  function HealthScore(totalBudget: real, totalSpent: real, riskCount: nat): (h: real)
    requires totalBudget > 0.0
    ensures 0.0 <= h <= 100.0
    ensures totalSpent <= 0.0 && riskCount == 0 ==> h == 100.0
  {
    var utilization := Max(0.0, 100.0 - totalSpent / totalBudget * 100.0);
    Max(0.0, Min(100.0, utilization - 15.0 * riskCount as real))
  }

  /** More risks or more spending never raise the health score. */
  lemma HealthScoreMonotone(totalBudget: real, spent1: real, spent2: real, risks1: nat, risks2: nat)
    requires totalBudget > 0.0 && spent1 <= spent2 && risks1 <= risks2
    ensures HealthScore(totalBudget, spent2, risks2) <= HealthScore(totalBudget, spent1, risks1)
  {
    assert spent1 / totalBudget <= spent2 / totalBudget;
    assert 15.0 * risks1 as real <= 15.0 * risks2 as real;
  }

  /** Each risk costs 15 points while the score stays strictly inside its range. */
  lemma HealthScoreExact(totalBudget: real, totalSpent: real, riskCount: nat)
    requires totalBudget > 0.0
    requires 0.0 <= totalSpent <= totalBudget
    requires 0.0 <= 100.0 - totalSpent / totalBudget * 100.0 - 15.0 * riskCount as real
    ensures HealthScore(totalBudget, totalSpent, riskCount) ==
              100.0 - totalSpent / totalBudget * 100.0 - 15.0 * riskCount as real
  {
    assert totalSpent / totalBudget >= 0.0;
  }

  // ------------------------------------------------------------ per project

  /** The budget risk of a project that has used `percentUsed` percent of its budget. */
  function ProjectRisks(p: Project, percentUsed: real): seq<Risk>
  {
    if percentUsed > 90.0 then [Risk("critical", p.name, percentUsed, "high", "high")]
    else if percentUsed > 75.0 then [Risk("warning", p.name, percentUsed, "medium", "medium")]
    else []
  }

  /**
   * The project's expenses newest first. The sort for the recent window
   * works in place on the project's expense list, so every later block of
   * the same project sees this order.
   */
  function ByRecency(mine: seq<Expense>): seq<Expense>
  {
    StableSort(mine, Negated(DateOf))
  }

  /** The project's expenses, most recent first, at most ten of them. */
  function Recent(mine: seq<Expense>): (r: seq<Expense>)
    ensures |r| == if |mine| < 10 then |mine| else 10
  {
    var sorted := ByRecency(mine);
    if |sorted| <= 10 then sorted else sorted[..10]
  }

  /** The recent window is drawn from the project's expenses. */
  lemma RecentWithin(mine: seq<Expense>)
    ensures multiset(Recent(mine)) <= multiset(mine)
  {
    var sorted := ByRecency(mine);
    var k := |Recent(mine)|;
    assert Recent(mine) == sorted[..k];
    StableSortPermutes(mine, Negated(DateOf));
    assert sorted == sorted[..k] + sorted[k..];
  }

  /** The recent window lists the newest expense first. */
  lemma RecentNewestFirst(mine: seq<Expense>)
    ensures forall i, j :: 0 <= i < j < |Recent(mine)| ==> Recent(mine)[i].date >= Recent(mine)[j].date
  {
    var sorted := ByRecency(mine);
    var recent := Recent(mine);
    assert recent == sorted[..|recent|];
    NewestFirst(mine, sorted);
    forall i, j | 0 <= i < j < |recent| ensures recent[i].date >= recent[j].date {
      assert recent[i] == sorted[i] && recent[j] == sorted[j];
    }
  }

  lemma NewestFirst(mine: seq<Expense>, sorted: seq<Expense>)
    requires sorted == ByRecency(mine)
    ensures forall i, j :: 0 <= i < j < |sorted| ==> sorted[i].date >= sorted[j].date
  {
    assert sorted == StableSort(mine, Negated(DateOf));
    SortDescendingOrdered(mine, DateOf);
  }

  /** No expense left out of the recent window is newer than one kept in it. */
  lemma RecentLatest(mine: seq<Expense>)
    ensures forall x, y | x in Recent(mine) && y in multiset(mine) - multiset(Recent(mine)) :: x.date >= y.date
  {
    var sorted := ByRecency(mine);
    var recent := Recent(mine);
    var k := |recent|;
    assert recent == sorted[..k];
    StableSortPermutes(mine, Negated(DateOf));
    assert multiset(sorted) == multiset(mine);
    NewestFirst(mine, sorted);
    assert forall i, j :: 0 <= i < j < |sorted| ==> DateOf(sorted[i]) >= DateOf(sorted[j]);
    DescendingRest(sorted, DateOf, k);
  }

  /**
   * The trend check: with at least five expenses, the average of the
   * recent ones spread over 30 days at a weekly rate is compared with what
   * is left of the budget.
   */
  function TrendOf(p: Project, mine: seq<Expense>, spent: real): Option<Insight>
    requires p.budget > 0.0
  {
    var recent := Recent(mine);
    if |recent| >= 5 then
      var projected := SumAmounts(recent) / |recent| as real * (30.0 / 7.0);
      var remaining := p.budget - spent;
      if projected > remaining then Some(Trend(p.name, (projected - remaining) / p.budget * 100.0, 75))
      else None
    else None
  }

  /**
   * A trend insight needs five expenses and a projected spend above the
   * remaining budget; it always carries confidence 75.
   */
  lemma TrendSpec(p: Project, mine: seq<Expense>, spent: real)
    requires p.budget > 0.0
    ensures TrendOf(p, mine, spent).Some? <==>
              |mine| >= 5 && SumAmounts(Recent(mine)) * 30.0 > (p.budget - spent) * 7.0 * |Recent(mine)| as real
    ensures TrendOf(p, mine, spent).Some? ==>
              var t := TrendOf(p, mine, spent).value;
              t.Trend? && t.project == p.name && t.confidence == 75 && t.overrunPercent > 0.0
  {
    var recent := Recent(mine);
    if |recent| >= 5 {
      var n := |recent| as real;
      var avg := SumAmounts(recent) / n;
      assert avg * n == SumAmounts(recent);
      var remaining := p.budget - spent;
      assert avg * (30.0 / 7.0) > remaining <==> avg * 30.0 > remaining * 7.0;
      assert avg * 30.0 > remaining * 7.0 <==> avg * n * 30.0 > remaining * 7.0 * n;
    }
  }

  /** `categorySpending[category]`, which is undefined for a category without expenses. */
  function TotalOf(groups: seq<CategoryGroup>, category: string): Option<real>
  {
    var i := FindCategory(groups, category);
    if i < |groups| then Some(groups[i].total) else None
  }

  /** `a > b` on possibly undefined totals: a comparison with undefined is false. */
  predicate Exceeds(a: Option<real>, b: Option<real>)
  {
    a.Some? && b.Some? && a.value > b.value
  }

  /** `Object.keys(categorySpending).reduce(...)` over the first `n` keys, starting at "Unknown". */
  function TopCategory(groups: seq<CategoryGroup>, n: nat): string
    requires n <= |groups|
  {
    if n == 0 then "Unknown"
    else
      var a := TopCategory(groups, n - 1);
      var b := groups[n - 1].category;
      if Exceeds(TotalOf(groups, a), TotalOf(groups, b)) then a else b
  }

  ghost predicate DistinctCategories(groups: seq<CategoryGroup>)
  {
    forall i, j :: 0 <= i < j < |groups| ==> groups[i].category != groups[j].category
  }

  lemma TotalOfGroup(groups: seq<CategoryGroup>, m: nat)
    requires DistinctCategories(groups) && m < |groups|
    ensures TotalOf(groups, groups[m].category) == Some(groups[m].total)
  {
    var i := FindCategory(groups, groups[m].category);
    assert i <= m;
  }

  /** Once a key has been seen, the reduction holds a category whose total is the largest so far. */
  lemma {:induction false} TopCategoryMaximal(groups: seq<CategoryGroup>, n: nat)
    requires DistinctCategories(groups) && 1 <= n <= |groups|
    ensures TotalOf(groups, TopCategory(groups, n)).Some?
    ensures forall m :: 0 <= m < n ==> groups[m].total <= TotalOf(groups, TopCategory(groups, n)).value
  {
    var a := TopCategory(groups, n - 1);
    var b := groups[n - 1].category;
    var top := TopCategory(groups, n);
    TotalOfGroup(groups, n - 1);
    assert top == if Exceeds(TotalOf(groups, a), TotalOf(groups, b)) then a else b;
    assert TotalOf(groups, top).Some? && TotalOf(groups, top).value >= groups[n - 1].total;
    if n > 1 {
      TopCategoryMaximal(groups, n - 1);
      forall m | 0 <= m < n - 1 ensures groups[m].total <= TotalOf(groups, top).value {
        assert groups[m].total <= TotalOf(groups, a).value;
      }
    }
  }

  /** The category insight, emitted when the top category exceeds half the project's spend. */
  function CategoryInsightOf(p: Project, groups: seq<CategoryGroup>, spent: real): (r: Option<Insight>)
    ensures r.Some? ==> r.value.CategoryShare? && r.value.project == p.name
  {
    var top := TopCategory(groups, |groups|);
    var total := TotalOf(groups, top);
    if total.Some? && total.value > spent * 0.5 then Some(CategoryShare(p.name, top, total.value)) else None
  }

  /**
   * Over groups with distinct categories, a category insight appears
   * exactly when some group's total exceeds half the spend, and it names a
   * group of largest total.
   */
  lemma CategoryInsightOfSpec(p: Project, groups: seq<CategoryGroup>, spent: real)
    requires DistinctCategories(groups)
    ensures CategoryInsightOf(p, groups, spent).Some? <==> exists g | g in groups :: g.total > spent * 0.5
    ensures CategoryInsightOf(p, groups, spent).Some? ==>
              var c := CategoryInsightOf(p, groups, spent).value;
              && c.CategoryShare? && c.project == p.name
              && (exists g | g in groups :: g.category == c.category && g.total == c.amount)
              && forall g | g in groups :: g.total <= c.amount
  {
    if groups != [] {
      TopCategoryMaximal(groups, |groups|);
      var top := TopCategory(groups, |groups|);
      var i := FindCategory(groups, top);
      assert groups[i] in groups;
      forall g | g in groups ensures g.total <= TotalOf(groups, top).value {
        var m :| 0 <= m < |groups| && groups[m] == g;
      }
    }
  }

  /**
   * A category insight appears exactly when some category's total exceeds
   * half the project's spend, so never for a project without expenses; it
   * names a category of largest total. The categories are met in the
   * newest-first order the trend block leaves the expenses in.
   */
  lemma CategoryInsightSpec(p: Project, mine: seq<Expense>, spent: real)
    ensures CategoryInsightOf(p, ByCategory(ByRecency(mine)), spent).Some? <==>
              exists g | g in ByCategory(ByRecency(mine)) :: g.total > spent * 0.5
    ensures mine == [] ==> CategoryInsightOf(p, ByCategory(ByRecency(mine)), spent).None?
    ensures CategoryInsightOf(p, ByCategory(ByRecency(mine)), spent).Some? ==>
              var c := CategoryInsightOf(p, ByCategory(ByRecency(mine)), spent).value;
              && c.CategoryShare? && c.project == p.name
              && (exists g | g in ByCategory(ByRecency(mine)) :: g.category == c.category && g.total == c.amount)
              && forall g | g in ByCategory(ByRecency(mine)) :: g.total <= c.amount
  {
    var sorted := ByRecency(mine);
    ByCategorySpec(sorted);
    CategoryInsightOfSpec(p, ByCategory(sorted), spent);
    if mine == [] {
      assert sorted == [];
      assert Group(sorted, CategoryOf) == [];
    }
  }

  /**
   * Two categories tied for the top total: the one met last wins the `>`
   * reduction, so with the expenses newest first it is the category of the
   * older expense, A, that is named.
   */
  lemma CategoryTieNamesOlder()
    ensures var p := Project("P", "P", 100.0, 5.0, "active");
            var e1 := Expense("e1", "P", "A", Some("capital"), 10.0, 1, "pending");
            var e2 := Expense("e2", "P", "B", Some("capital"), 10.0, 2, "pending");
            var e3 := Expense("e3", "P", "C", Some("capital"), -15.0, 3, "pending");
            var c := CategoryInsightOf(p, ByCategory(ByRecency([e1, e2, e3])), 5.0);
            c.Some? && c.value.category == "A"
  {
    var e1 := Expense("e1", "P", "A", Some("capital"), 10.0, 1, "pending");
    var e2 := Expense("e2", "P", "B", Some("capital"), 10.0, 2, "pending");
    var e3 := Expense("e3", "P", "C", Some("capital"), -15.0, 3, "pending");
    ByRecencyThree(e1, e2, e3);
    ByCategoryThree(e3, e2, e1);
    TieGoesToLast(CategoryGroup("C", -15.0, 1, [e3]), CategoryGroup("B", 10.0, 1, [e2]), CategoryGroup("A", 10.0, 1, [e1]));
  }

  /** Of two equal top totals met in turn, the reduction keeps the later category. */
  lemma TieGoesToLast(c: CategoryGroup, b: CategoryGroup, a: CategoryGroup)
    requires c.category == "C" && b.category == "B" && a.category == "A"
    requires c.total < b.total == a.total
    ensures TopCategory([c, b, a], 3) == "A"
    ensures TotalOf([c, b, a], "A") == Some(a.total)
  {
    var groups := [c, b, a];
    assert DistinctCategories(groups);
    TotalOfGroup(groups, 0);
    TotalOfGroup(groups, 1);
    TotalOfGroup(groups, 2);
    assert FindCategory(groups, "Unknown") == 3;
    assert TopCategory(groups, 1) == "C";
    assert TopCategory(groups, 2) == "B";
  }

  lemma ByRecencyThree(e1: Expense, e2: Expense, e3: Expense)
    requires e1.date < e2.date < e3.date
    ensures ByRecency([e1, e2, e3]) == [e3, e2, e1]
  {
    var key := Negated(DateOf);
    assert key(e1) == -DateOf(e1) && key(e2) == -DateOf(e2) && key(e3) == -DateOf(e3);
    ReversedThree(e1, e2, e3, key);
  }

  /** Three elements of strictly decreasing key sort into the reverse order. */
  lemma ReversedThree<T>(a: T, b: T, c: T, key: T -> int)
    requires key(a) > key(b) > key(c)
    ensures StableSort([a, b, c], key) == [c, b, a]
  {
    assert [a, b, c][..2] == [a, b] && [a, b][..1] == [a] && [a][..0] == [];
    assert StableSort([a], key) == Insert([], a, key) == [a];
    assert Insert([a], b, key) == Insert([], b, key) + [a] == [b, a];
    assert StableSort([a, b], key) == Insert(StableSort([a], key), b, key) == [b, a];
    assert [b, a][..1] == [b] && [b][..0] == [];
    assert Insert([b], c, key) == Insert([], c, key) + [b] == [c, b];
    assert Insert([b, a], c, key) == Insert([b], c, key) + [a] == [c, b, a];
    assert StableSort([a, b, c], key) == Insert(StableSort([a, b], key), c, key);
  }

  lemma ByCategoryThree(a: Expense, b: Expense, c: Expense)
    requires a.category != b.category && a.category != c.category && b.category != c.category
    ensures ByCategory([a, b, c]) ==
              [CategoryGroup(a.category, a.amount, 1, [a]), CategoryGroup(b.category, b.amount, 1, [b]),
               CategoryGroup(c.category, c.amount, 1, [c])]
  {
    var s := [a, b, c];
    assert s[..1] == [a] && s[..2] == [a, b] && [a][..0] == [];
    assert Group(s[..1], CategoryOf) == [(a.category, [a])];
    assert Group(s[..2], CategoryOf) == [(a.category, [a]), (b.category, [b])];
    assert Group(s, CategoryOf) == [(a.category, [a]), (b.category, [b]), (c.category, [c])];
    SumSingleton(a, AmountOf);
    SumSingleton(b, AmountOf);
    SumSingleton(c, AmountOf);
  }

  /** What one project adds to the collected risks, insights and recommendations. */
  datatype Findings = Findings(risks: seq<Risk>, insights: seq<Insight>, recommendations: seq<Recommendation>)

  function Review(p: Project): Recommendation { Recommendation(Some(p.name), "Budget Review", "high", []) }
  function Control(p: Project): Recommendation { Recommendation(Some(p.name), "Spending Control", "medium", []) }

  function Seq<T>(o: Option<T>): seq<T> { if o.Some? then [o.value] else [] }

  /**
   * What one project adds, given the percentage of its budget it has used
   * and its trend and category insights, if any.
   */
  function Assemble(p: Project, percentUsed: real, trend: Option<Insight>, category: Option<Insight>): Findings
  {
    Findings(
      ProjectRisks(p, percentUsed),
      Seq(trend) + Seq(category),
      (if percentUsed > 90.0 then [Review(p)] else []) + (if trend.Some? then [Control(p)] else []))
  }

  /** The percentage of its budget a project has used, `spent / budget * 100`. */
  function PercentUsed(p: Project, expenses: seq<Expense>): real
    requires p.budget > 0.0
  {
    SpentOn(expenses, p.id) / p.budget * 100.0
  }

  /** One pass of the `projects.forEach` body of `analyzeBudgetRisk`. */
  function ProjectFindings(p: Project, expenses: seq<Expense>): Findings
    requires p.budget > 0.0
  {
    var mine := ExpensesOf(expenses, p.id);
    var spent := SumAmounts(mine);
    Assemble(p, PercentUsed(p, expenses), TrendOf(p, mine, spent), CategoryInsightOf(p, ByCategory(ByRecency(mine)), spent))
  }

  /**
   * The risks of a project depend on its percentage used alone, and so
   * does the budget review, which comes first whenever it is there.
   */
  lemma ProjectFindingsRisks(p: Project, expenses: seq<Expense>)
    requires p.budget > 0.0
    ensures ProjectFindings(p, expenses).risks == ProjectRisks(p, PercentUsed(p, expenses))
    ensures Review(p) in ProjectFindings(p, expenses).recommendations <==> PercentUsed(p, expenses) > 90.0
    ensures PercentUsed(p, expenses) > 90.0 ==> ProjectFindings(p, expenses).recommendations[0] == Review(p)
  {
    assert Review(p) != Control(p);
  }

  /** The percentage used passes a threshold exactly when the spend passes that share of the budget. */
  lemma PercentUsedThreshold(p: Project, expenses: seq<Expense>, t: real)
    requires p.budget > 0.0
    ensures PercentUsed(p, expenses) > t <==> SpentOn(expenses, p.id) > t / 100.0 * p.budget
  {
    PercentThreshold(SpentOn(expenses, p.id), p.budget, t);
  }

  /**
   * A project above 90 percent of its budget yields one critical,
   * high-impact risk and, first among its recommendations, a high-priority
   * budget review.
   */
  lemma CriticalProjectSpec(p: Project, expenses: seq<Expense>)
    requires p.budget > 0.0 && PercentUsed(p, expenses) > 90.0
    ensures var f := ProjectFindings(p, expenses);
            && |f.risks| == 1 && f.risks[0].level == "critical" && f.risks[0].impact == "high"
            && f.risks[0].project == p.name && f.risks[0].percentUsed == PercentUsed(p, expenses)
            && f.recommendations[0] == Recommendation(Some(p.name), "Budget Review", "high", [])
  {
    ProjectFindingsRisks(p, expenses);
  }

  /**
   * A project above 75 and at most 90 percent of its budget yields one
   * warning of medium impact and no budget review.
   */
  lemma WarningProjectSpec(p: Project, expenses: seq<Expense>)
    requires p.budget > 0.0 && 75.0 < PercentUsed(p, expenses) <= 90.0
    ensures var f := ProjectFindings(p, expenses);
            && |f.risks| == 1 && f.risks[0].level == "warning" && f.risks[0].impact == "medium"
            && f.risks[0].project == p.name && f.risks[0].percentUsed == PercentUsed(p, expenses)
            && Review(p) !in f.recommendations
  {
    ProjectFindingsRisks(p, expenses);
  }

  /** A project at most 75 percent into its budget yields no risk and no budget review. */
  lemma QuietProjectSpec(p: Project, expenses: seq<Expense>)
    requires p.budget > 0.0 && PercentUsed(p, expenses) <= 75.0
    ensures var f := ProjectFindings(p, expenses);
            f.risks == [] && Review(p) !in f.recommendations
  {
    ProjectFindingsRisks(p, expenses);
  }

  /** A project has a risk exactly when it has used more than 75 percent of its budget. */
  lemma ProjectRiskIff(p: Project, expenses: seq<Expense>)
    requires p.budget > 0.0
    ensures ProjectFindings(p, expenses).risks == [] <==> PercentUsed(p, expenses) <= 75.0
  {
    ProjectFindingsRisks(p, expenses);
  }

  /**
   * The per-project pass yields one risk exactly when the project is more
   * than 75 percent into its budget, of level critical or warning, and
   * never a portfolio insight or the fallback recommendation.
   */
  lemma ProjectFindingsShape(p: Project, expenses: seq<Expense>)
    requires p.budget > 0.0
    ensures |ProjectFindings(p, expenses).risks| == if PercentUsed(p, expenses) > 75.0 then 1 else 0
    ensures forall r | r in ProjectFindings(p, expenses).risks :: r.level == "critical" || r.level == "warning"
    ensures forall x | x in ProjectFindings(p, expenses).insights :: !x.Portfolio?
    ensures Optimization !in ProjectFindings(p, expenses).recommendations
  {
    ProjectFindingsRisks(p, expenses);
    var mine := ExpensesOf(expenses, p.id);
    var spent := SumAmounts(mine);
    var trend := TrendOf(p, mine, spent);
    var category := CategoryInsightOf(p, ByCategory(ByRecency(mine)), spent);
    ProjectFindingsParts(p, expenses, mine, spent, PercentUsed(p, expenses), trend, category);
    assert trend.Some? ==> trend.value.Trend?;
  }

  /** The findings of `projects[..n]`, in project order. */
  function Collect(projects: seq<Project>, expenses: seq<Expense>): Findings
    requires PositiveBudgets(projects)
  {
    if projects == [] then Findings([], [], [])
    else
      var init := projects[..|projects| - 1];
      assert forall p | p in init :: p in projects;
      var f := Collect(init, expenses);
      var g := ProjectFindings(projects[|projects| - 1], expenses);
      Findings(f.risks + g.risks, f.insights + g.insights, f.recommendations + g.recommendations)
  }

  lemma CollectStep(projects: seq<Project>, n: nat, expenses: seq<Expense>)
    requires PositiveBudgets(projects) && n < |projects|
    ensures PositiveBudgets(projects[..n]) && PositiveBudgets(projects[..n + 1])
    ensures var f := Collect(projects[..n], expenses);
            var g := ProjectFindings(projects[n], expenses);
            Collect(projects[..n + 1], expenses) ==
              Findings(f.risks + g.risks, f.insights + g.insights, f.recommendations + g.recommendations)
  {
    assert projects[..n + 1][..n] == projects[..n];
    assert forall p | p in projects[..n + 1] :: p in projects;
  }

  /** A project is at risk once it has used more than 75 percent of its budget. */
  function AtRisk(expenses: seq<Expense>): Project -> bool
  {
    (p: Project) => p.budget > 0.0 && PercentUsed(p, expenses) > 75.0
  }

  /**
   * Exactly one risk per project at risk, none of them of unknown level; no
   * portfolio insight and no fallback recommendation come from the projects.
   */
  lemma {:induction false} CollectSpec(projects: seq<Project>, expenses: seq<Expense>)
    requires PositiveBudgets(projects)
    ensures |Collect(projects, expenses).risks| == Count(projects, AtRisk(expenses))
    ensures forall r | r in Collect(projects, expenses).risks :: r.level == "critical" || r.level == "warning"
    ensures forall x | x in Collect(projects, expenses).insights :: !x.Portfolio?
    ensures Optimization !in Collect(projects, expenses).recommendations
  {
    if projects != [] {
      var init := projects[..|projects| - 1];
      var p := projects[|projects| - 1];
      assert forall q | q in init :: q in projects;
      CollectSpec(init, expenses);
      ProjectFindingsShape(p, expenses);
      var atRisk := AtRisk(expenses);
      assert atRisk(p) == (PercentUsed(p, expenses) > 75.0);
      assert Count(projects, atRisk) == Count(init, atRisk) + if atRisk(p) then 1 else 0;
    }
  }


  // -------------------------------------------------------------- portfolio

  const Optimization := Recommendation(Some("Portfolio"), "Optimization", "low", [])

  datatype Analysis = Analysis(
    risks: seq<Risk>,
    insights: seq<Insight>,
    recommendations: seq<Recommendation>,
    score: real)

  /**
   * The part of `analyzeBudgetRisk` after the walk over the projects: the
   * portfolio insight, the fallback recommendation when nothing is at risk,
   * the two rankings and the health score.
   */
  function Conclude(c: Findings, totalBudget: real, totalSpent: real): Analysis
    requires totalBudget > 0.0
  {
    var portfolio := Portfolio(totalBudget, totalSpent, totalBudget - totalSpent, totalSpent / totalBudget * 100.0);
    var recommendations := c.recommendations + (if c.risks == [] then [Optimization] else []);
    Analysis(
      StableSort(c.risks, Negated(RiskScore)),
      c.insights + [portfolio],
      StableSort(recommendations, Negated(PriorityOf)),
      HealthScore(totalBudget, totalSpent, |c.risks|))
  }

  /** What `analyzeBudgetRisk(projects, expenses)` returns, without its timestamp. */
  function BudgetAnalysis(projects: seq<Project>, expenses: seq<Expense>): Analysis
    requires |projects| > 0 && PositiveBudgets(projects)
  {
    TotalBudgetPositive(projects);
    Conclude(Collect(projects, expenses), TotalBudget(projects), SumAmounts(expenses))
  }

  /**
   * Concluding appends exactly one portfolio insight, for the whole
   * portfolio, after the insights collected from the projects.
   */
  lemma ConcludeInsights(c: Findings, totalBudget: real, totalSpent: real)
    requires totalBudget > 0.0
    requires forall x | x in c.insights :: !x.Portfolio?
    ensures |Conclude(c, totalBudget, totalSpent).insights| == |c.insights| + 1
    ensures Conclude(c, totalBudget, totalSpent).insights[|c.insights|] ==
              Portfolio(totalBudget, totalSpent, totalBudget - totalSpent, totalSpent / totalBudget * 100.0)
    ensures forall i | 0 <= i < |c.insights| :: !Conclude(c, totalBudget, totalSpent).insights[i].Portfolio?
  {
    var insights := Conclude(c, totalBudget, totalSpent).insights;
    assert insights[..|c.insights|] == c.insights;
  }

  /**
   * Concluding adds the fallback recommendation exactly when nothing was
   * found at risk, keeps one ranked risk per collected risk and scores
   * within 0..100.
   */
  lemma ConcludeRanking(c: Findings, totalBudget: real, totalSpent: real)
    requires totalBudget > 0.0
    requires Optimization !in c.recommendations
    ensures Optimization in Conclude(c, totalBudget, totalSpent).recommendations <==> c.risks == []
    ensures |Conclude(c, totalBudget, totalSpent).risks| == |c.risks|
    ensures 0.0 <= Conclude(c, totalBudget, totalSpent).score <= 100.0
  {
    var recommendations := c.recommendations + (if c.risks == [] then [Optimization] else []);
    StableSortPermutes(recommendations, Negated(PriorityOf));
    assert Optimization in recommendations <==> Optimization in multiset(recommendations);
  }

  /**
   * The portfolio insight comes last and only once, with the remaining
   * budget of the whole portfolio; the fallback recommendation is there
   * exactly when no project is at risk; the score counts one risk per
   * project at risk.
   */
  lemma BudgetAnalysisSpec(projects: seq<Project>, expenses: seq<Expense>)
    requires |projects| > 0 && PositiveBudgets(projects)
    ensures var a := BudgetAnalysis(projects, expenses);
            && |a.insights| > 0
            && a.insights[|a.insights| - 1].Portfolio?
            && a.insights[|a.insights| - 1].totalBudget == TotalBudget(projects)
            && a.insights[|a.insights| - 1].totalSpent == SumAmounts(expenses)
            && a.insights[|a.insights| - 1].remaining == TotalBudget(projects) - SumAmounts(expenses)
            && (forall i | 0 <= i < |a.insights| - 1 :: !a.insights[i].Portfolio?)
            && (Optimization in a.recommendations <==> a.risks == [])
            && (a.risks == [] <==> forall p | p in projects :: PercentUsed(p, expenses) <= 75.0)
            && |a.risks| == Count(projects, AtRisk(expenses))
            && 0.0 <= a.score <= 100.0
  {
    TotalBudgetPositive(projects);
    var c := Collect(projects, expenses);
    CollectSpec(projects, expenses);
    ConcludeInsights(c, TotalBudget(projects), SumAmounts(expenses));
    ConcludeRanking(c, TotalBudget(projects), SumAmounts(expenses));
    assert BudgetAnalysis(projects, expenses) == Conclude(c, TotalBudget(projects), SumAmounts(expenses));
    var atRisk := AtRisk(expenses);
    FilterMembers(projects, atRisk);
    if Count(projects, atRisk) == 0 {
      forall p | p in projects ensures PercentUsed(p, expenses) <= 75.0 {
        assert atRisk(p) == (PercentUsed(p, expenses) > 75.0);
      }
    } else {
      var p := Filter(projects, atRisk)[0];
      assert p in Filter(projects, atRisk);
      assert atRisk(p) == (PercentUsed(p, expenses) > 75.0);
    }
  }

  /**
   * Risks come out by non-increasing score and recommendations by
   * non-increasing priority, each a permutation of what was collected in
   * which equal scores keep their collection order.
   */
  lemma BudgetAnalysisRanking(projects: seq<Project>, expenses: seq<Expense>, k: int)
    requires |projects| > 0 && PositiveBudgets(projects)
    ensures var a := BudgetAnalysis(projects, expenses);
            var c := Collect(projects, expenses);
            var collected := c.recommendations + (if c.risks == [] then [Optimization] else []);
            && multiset(a.risks) == multiset(c.risks)
            && (forall i, j :: 0 <= i < j < |a.risks| ==> RiskScore(a.risks[i]) >= RiskScore(a.risks[j]))
            && Filter(a.risks, KeyIs(RiskScore, k)) == Filter(c.risks, KeyIs(RiskScore, k))
            && multiset(a.recommendations) == multiset(collected)
            && (forall i, j :: 0 <= i < j < |a.recommendations| ==>
                  PriorityOf(a.recommendations[i]) >= PriorityOf(a.recommendations[j]))
            && Filter(a.recommendations, KeyIs(PriorityOf, k)) == Filter(collected, KeyIs(PriorityOf, k))
  {
    var c := Collect(projects, expenses);
    var collected := c.recommendations + (if c.risks == [] then [Optimization] else []);
    StableSortPermutes(c.risks, Negated(RiskScore));
    SortDescendingOrdered(c.risks, RiskScore);
    SortDescendingStable(c.risks, RiskScore, k);
    StableSortPermutes(collected, Negated(PriorityOf));
    SortDescendingOrdered(collected, PriorityOf);
    SortDescendingStable(collected, PriorityOf, k);
  }

  /**
   * The `projects.forEach` callback of `analyzeBudgetRisk`: pushes one
   * project's risk, insights and recommendations onto the lists collected
   * so far.
   */
  method PushProjectFindings(p: Project, expenses: seq<Expense>,
                             risks0: seq<Risk>, insights0: seq<Insight>, recommendations0: seq<Recommendation>)
    returns (risks: seq<Risk>, insights: seq<Insight>, recommendations: seq<Recommendation>)
    requires p.budget > 0.0
    ensures var f := ProjectFindings(p, expenses);
            risks == risks0 + f.risks && insights == insights0 + f.insights
            && recommendations == recommendations0 + f.recommendations
  {
    risks, insights, recommendations := risks0, insights0, recommendations0;
    var mine := ExpensesOf(expenses, p.id);
    var spent := SumAmounts(mine);
    var percentUsed := spent / p.budget * 100.0;
    risks, recommendations := PushProjectRisk(p, percentUsed, risks, recommendations);
    var trend := TrendOf(p, mine, spent);
    insights, recommendations := PushTrend(p, trend, insights, recommendations);
    var category;
    insights, category := PushCategory(p, ByRecency(mine), spent, insights);
    PushedFindings(p, expenses, mine, spent, percentUsed, trend, category,
                   risks0, insights0, recommendations0, risks, insights, recommendations);
  }

  /**
   * The category block of one project: groups its expenses, in the order
   * the trend block left them, and adds the share insight, if any.
   */
  method PushCategory(p: Project, sorted: seq<Expense>, spent: real, insights0: seq<Insight>)
    returns (insights: seq<Insight>, category: Option<Insight>)
    ensures category == CategoryInsightOf(p, ByCategory(sorted), spent)
    ensures insights == insights0 + Seq(category)
  {
    var groups := GetExpensesByCategory(sorted);
    category := CategoryInsightOf(p, groups, spent);
    insights := insights0;
    if category.Some? {
      insights := insights + [category.value];
    }
  }

  /** The trend block of one project: the insight and a cost-control recommendation. */
  method PushTrend(p: Project, trend: Option<Insight>, insights0: seq<Insight>, recommendations0: seq<Recommendation>)
    returns (insights: seq<Insight>, recommendations: seq<Recommendation>)
    ensures insights == insights0 + Seq(trend)
    ensures recommendations == recommendations0 + (if trend.Some? then [Control(p)] else [])
  {
    insights, recommendations := insights0, recommendations0;
    if trend.Some? {
      insights := insights + [trend.value];
      recommendations := recommendations + [Control(p)];
    }
  }

  /** The three blocks of one project, appended in turn, add what `ProjectFindings` says. */
  lemma PushedFindings(p: Project, expenses: seq<Expense>, mine: seq<Expense>, spent: real,
                       percentUsed: real, trend: Option<Insight>, category: Option<Insight>,
                       risks0: seq<Risk>, insights0: seq<Insight>, recommendations0: seq<Recommendation>,
                       risks: seq<Risk>, insights: seq<Insight>, recommendations: seq<Recommendation>)
    requires p.budget > 0.0 && mine == ExpensesOf(expenses, p.id) && spent == SumAmounts(mine)
    requires percentUsed == spent / p.budget * 100.0
    requires trend == TrendOf(p, mine, spent) && category == CategoryInsightOf(p, ByCategory(ByRecency(mine)), spent)
    requires risks == risks0 + ProjectRisks(p, percentUsed)
    requires insights == insights0 + Seq(trend) + Seq(category)
    requires recommendations == recommendations0 + (if percentUsed > 90.0 then [Review(p)] else [])
                                + (if trend.Some? then [Control(p)] else [])
    ensures var f := ProjectFindings(p, expenses);
            risks == risks0 + f.risks && insights == insights0 + f.insights
            && recommendations == recommendations0 + f.recommendations
  {
    AssembledPushes(p, percentUsed, trend, category, risks0, insights0, recommendations0, risks, insights, recommendations);
    ProjectFindingsParts(p, expenses, mine, spent, percentUsed, trend, category);
  }

  /** The three blocks, appended in turn, add what `Assemble` collects. */
  lemma AssembledPushes(p: Project, percentUsed: real, trend: Option<Insight>, category: Option<Insight>,
                        risks0: seq<Risk>, insights0: seq<Insight>, recommendations0: seq<Recommendation>,
                        risks: seq<Risk>, insights: seq<Insight>, recommendations: seq<Recommendation>)
    requires risks == risks0 + ProjectRisks(p, percentUsed)
    requires insights == insights0 + Seq(trend) + Seq(category)
    requires recommendations == recommendations0 + (if percentUsed > 90.0 then [Review(p)] else [])
                                + (if trend.Some? then [Control(p)] else [])
    ensures var f := Assemble(p, percentUsed, trend, category);
            risks == risks0 + f.risks && insights == insights0 + f.insights
            && recommendations == recommendations0 + f.recommendations
  {
    var f := Assemble(p, percentUsed, trend, category);
    assert insights == insights0 + f.insights;
    assert recommendations == recommendations0 + f.recommendations;
  }

  lemma ProjectFindingsParts(p: Project, expenses: seq<Expense>, mine: seq<Expense>, spent: real,
                             percentUsed: real, trend: Option<Insight>, category: Option<Insight>)
    requires p.budget > 0.0 && mine == ExpensesOf(expenses, p.id) && spent == SumAmounts(mine)
    requires percentUsed == spent / p.budget * 100.0
    requires trend == TrendOf(p, mine, spent) && category == CategoryInsightOf(p, ByCategory(ByRecency(mine)), spent)
    ensures ProjectFindings(p, expenses) == Assemble(p, percentUsed, trend, category)
  {
  }

  /** The risk block of one project: a critical risk and a review above 90%, a warning above 75%. */
  method PushProjectRisk(p: Project, percentUsed: real, risks0: seq<Risk>, recommendations0: seq<Recommendation>)
    returns (risks: seq<Risk>, recommendations: seq<Recommendation>)
    ensures risks == risks0 + ProjectRisks(p, percentUsed)
    ensures recommendations == recommendations0 + (if percentUsed > 90.0 then [Review(p)] else [])
  {
    risks, recommendations := risks0, recommendations0;
    if percentUsed > 90.0 {
      risks := risks + [Risk("critical", p.name, percentUsed, "high", "high")];
      recommendations := recommendations + [Review(p)];
    } else if percentUsed > 75.0 {
      risks := risks + [Risk("warning", p.name, percentUsed, "medium", "medium")];
    }
  }

  /** The `projects.forEach` loop of `analyzeBudgetRisk`. */
  method CollectFindings(projects: seq<Project>, expenses: seq<Expense>)
    returns (risks: seq<Risk>, insights: seq<Insight>, recommendations: seq<Recommendation>)
    requires PositiveBudgets(projects)
    ensures Findings(risks, insights, recommendations) == Collect(projects, expenses)
  {
    risks, insights, recommendations := [], [], [];
    for n := 0 to |projects|
      invariant PositiveBudgets(projects[..n])
      invariant Findings(risks, insights, recommendations) == Collect(projects[..n], expenses)
    {
      assert projects[n] in projects;
      risks, insights, recommendations := PushProjectFindings(projects[n], expenses, risks, insights, recommendations);
      CollectStep(projects, n, expenses);
    }
    assert projects[..|projects|] == projects;
  }

  /**
   * The rest of `analyzeBudgetRisk`: pushes the portfolio insight, pushes
   * the fallback recommendation when nothing is at risk, ranks both lists
   * and scores the portfolio.
   */
  method ConcludeAnalysis(risks: seq<Risk>, insights0: seq<Insight>, recommendations0: seq<Recommendation>,
                          totalBudget: real, totalSpent: real)
    returns (a: Analysis)
    requires totalBudget > 0.0
    ensures a == Conclude(Findings(risks, insights0, recommendations0), totalBudget, totalSpent)
  {
    var insights := insights0 + [Portfolio(totalBudget, totalSpent, totalBudget - totalSpent, totalSpent / totalBudget * 100.0)];
    var recommendations := recommendations0;
    assert |risks| == 0 <==> risks == [];
    if |risks| == 0 {
      recommendations := recommendations + [Optimization];
    } else {
      assert recommendations == recommendations0 + [];
    }
    a := Analysis(
      StableSort(risks, Negated(RiskScore)),
      insights,
      StableSort(recommendations, Negated(PriorityOf)),
      HealthScore(totalBudget, totalSpent, |risks|));
  }

  /**
   * `analyzeBudgetRisk(projects, expenses)`: walks the projects collecting
   * their findings, then concludes with the portfolio-wide part.
   */
  method AnalyzeBudgetRisk(projects: seq<Project>, expenses: seq<Expense>) returns (a: Analysis)
    requires |projects| > 0 && PositiveBudgets(projects)
    ensures a == BudgetAnalysis(projects, expenses)
  {
    var risks, insights, recommendations := CollectFindings(projects, expenses);
    TotalBudgetPositive(projects);
    var totalBudget := TotalBudget(projects);
    var totalSpent := SumAmounts(expenses);
    a := ConcludeAnalysis(risks, insights, recommendations, totalBudget, totalSpent);
  }

  // -------------------------------------------------------------- cash flow

  datatype DayForecast = DayForecast(day: int, predicted: real, confidence: real)

  datatype Forecast = Forecast(prediction: seq<DayForecast>, averageDailySpend: real, totalPredicted: real)

  /** The default horizon of `predictCashFlow`. */
  const DefaultDaysAhead: nat := 30

  /** `.slice(-30)`: the last thirty of the date-sorted expenses. */
  function Latest(sorted: seq<Expense>): (r: seq<Expense>)
    ensures |r| == if |sorted| < 30 then |sorted| else 30
  {
    if |sorted| <= 30 then sorted else sorted[|sorted| - 30..]
  }

  /** Confidence on day `i` after today: 95 less 1.5 per day, never below 60. */
  function Confidence(i: nat): real
  {
    Max(60.0, 95.0 - i as real * 1.5)
  }

  /** Day `i` of the forecast, with `random` standing for that day's `Math.random()`. */
  function DayOf(today: int, i: nat, average: real, random: real): DayForecast
  {
    DayForecast(today + i, average * (1.0 + (random - 0.5) * 0.4), Confidence(i))
  }

  /** The forecast for each of the `daysAhead` days after `today`. */
  function Days(today: int, average: real, randoms: seq<real>, daysAhead: nat): seq<DayForecast>
    requires |randoms| >= daysAhead
  {
    seq(daysAhead, i requires 0 <= i < daysAhead => DayOf(today, i + 1, average, randoms[i]))
  }

  /** The average amount of the forecast window. */
  function Average(window: seq<Expense>): (m: real)
    requires |window| > 0
    ensures m * |window| as real == SumAmounts(window)
  {
    SumAmounts(window) / |window| as real
  }

  /** The result of `predictCashFlow` over expenses already sorted by date. */
  function CashFlow(sorted: seq<Expense>, daysAhead: nat, today: int, randoms: seq<real>): Option<Forecast>
    requires |randoms| >= daysAhead
  {
    var window := Latest(sorted);
    if |window| < 7 then None
    else
      var average := Average(window);
      Some(Forecast(Days(today, average, randoms, daysAhead), average, average * daysAhead as real))
  }

  /** `CashFlow` when the window is large enough, written out. */
  lemma CashFlowSome(sorted: seq<Expense>, daysAhead: nat, today: int, randoms: seq<real>)
    requires |randoms| >= daysAhead && |Latest(sorted)| >= 7
    ensures CashFlow(sorted, daysAhead, today, randoms) ==
              Some(Forecast(Days(today, Average(Latest(sorted)), randoms, daysAhead),
                            Average(Latest(sorted)), Average(Latest(sorted)) * daysAhead as real))
  {
  }

  /** A draw in [0, 1) moves a day's amount at most 20 percent away from a non-negative average. */
  lemma DayWithinBand(today: int, i: nat, average: real, random: real)
    requires 0.0 <= random < 1.0 && average >= 0.0
    ensures 0.8 * average <= DayOf(today, i, average, random).predicted <= 1.2 * average
  {
    var v := (random - 0.5) * 0.4;
    assert -0.2 <= v <= 0.2;
    assert DayOf(today, i, average, random).predicted == average + average * v;
    assert -0.2 * average <= average * v <= 0.2 * average;
  }

  /** Confidence stays within [60, 93.5] from the first day on and never rises. */
  lemma ConfidenceBounds(i: nat, j: nat)
    requires 1 <= i <= j
    ensures 60.0 <= Confidence(i) <= 93.5
    ensures Confidence(i) >= Confidence(j)
  {
  }

  /**
   * No forecast from fewer than seven expenses; otherwise one entry per day
   * ahead, for consecutive days, whose confidence never rises and stays
   * within [60, 93.5], whose amounts stay within 20 percent of the average
   * when the random draws lie in [0, 1) and the average is not negative,
   * and whose total is the average times the number of days.
   */
  lemma CashFlowSpec(sorted: seq<Expense>, daysAhead: nat, today: int, randoms: seq<real>)
    requires |randoms| >= daysAhead
    ensures CashFlow(sorted, daysAhead, today, randoms).None? <==> |sorted| < 7
    ensures CashFlow(sorted, daysAhead, today, randoms).Some? ==>
              var f := CashFlow(sorted, daysAhead, today, randoms).value;
              && |f.prediction| == daysAhead
              && f.averageDailySpend * |Latest(sorted)| as real == SumAmounts(Latest(sorted))
              && f.totalPredicted == f.averageDailySpend * daysAhead as real
              && (forall i | 0 <= i < daysAhead :: f.prediction[i].day == today + i + 1)
              && (forall i | 0 <= i < daysAhead :: 60.0 <= f.prediction[i].confidence <= 93.5)
              && (forall i, j | 0 <= i < j < daysAhead :: f.prediction[i].confidence >= f.prediction[j].confidence)
              && ((forall i | 0 <= i < daysAhead :: 0.0 <= randoms[i] < 1.0) && f.averageDailySpend >= 0.0 ==>
                    forall i | 0 <= i < daysAhead ::
                      0.8 * f.averageDailySpend <= f.prediction[i].predicted <= 1.2 * f.averageDailySpend)
  {
    var window := Latest(sorted);
    if |window| >= 7 {
      var average := Average(window);
      var days := Days(today, average, randoms, daysAhead);
      CashFlowSome(sorted, daysAhead, today, randoms);
      forall i | 0 <= i < daysAhead
        ensures days[i].day == today + i + 1 && 60.0 <= days[i].confidence <= 93.5
      {
        ConfidenceBounds(i + 1, i + 1);
      }
      forall i, j | 0 <= i < j < daysAhead
        ensures days[i].confidence >= days[j].confidence
      {
        ConfidenceBounds(i + 1, j + 1);
      }
      if (forall i | 0 <= i < daysAhead :: 0.0 <= randoms[i] < 1.0) && average >= 0.0 {
        forall i | 0 <= i < daysAhead
          ensures 0.8 * average <= days[i].predicted <= 1.2 * average
        {
          DayWithinBand(today, i + 1, average, randoms[i]);
        }
      }
    }
  }

  /** The forecast window is drawn from the expenses. */
  lemma LatestWithin(expenses: seq<Expense>)
    ensures multiset(Latest(StableSort(expenses, DateOf))) <= multiset(expenses)
  {
    var sorted := StableSort(expenses, DateOf);
    var k := |sorted| - |Latest(sorted)|;
    assert Latest(sorted) == sorted[k..];
    StableSortPermutes(expenses, DateOf);
    PrefixRest(sorted, k);
  }

  /**
   * The forecast window holds the latest expenses of the date-sorted list:
   * nothing left out of it is dated after anything kept.
   */
  lemma LatestLatest(expenses: seq<Expense>)
    ensures var window := Latest(StableSort(expenses, DateOf));
            forall x, y | x in window && y in multiset(expenses) - multiset(window) :: y.date <= x.date
  {
    var sorted := StableSort(expenses, DateOf);
    var k := |sorted| - |Latest(sorted)|;
    assert Latest(sorted) == sorted[k..];
    StableSortPermutes(expenses, DateOf);
    StableSortSorted(expenses, DateOf);
    PrefixRest(sorted, k);
    AscendingSplit(sorted, DateOf, k);
  }

  /** The day-by-day loop of `predictCashFlow`. */
  method ForecastDays(today: int, average: real, randoms: seq<real>, daysAhead: nat)
    returns (prediction: seq<DayForecast>)
    requires |randoms| >= daysAhead
    ensures prediction == Days(today, average, randoms, daysAhead)
  {
    prediction := [];
    for i := 1 to daysAhead + 1
      invariant |prediction| == i - 1
      invariant forall m | 0 <= m < i - 1 :: prediction[m] == DayOf(today, m + 1, average, randoms[m])
    {
      var variance := (randoms[i - 1] - 0.5) * 0.4;
      var predicted := average * (1.0 + variance);
      prediction := prediction + [DayForecast(today + i, predicted, Max(60.0, 95.0 - i as real * 1.5))];
    }
  }

  /**
   * `predictCashFlow(expenses, daysAhead)`: sorts the caller's array by
   * date in place, then forecasts each of the next `daysAhead` days from
   * the average of the latest thirty expenses; `daysAhead` defaults to 30.
   */
  method PredictCashFlow(expenses: array<Expense>, today: int, randoms: seq<real>, daysAhead: nat := DefaultDaysAhead)
    returns (r: Option<Forecast>)
    requires |randoms| >= daysAhead
    modifies expenses
    ensures expenses[..] == StableSort(old(expenses[..]), DateOf)
    ensures r == CashFlow(expenses[..], daysAhead, today, randoms)
  {
    SortInPlace(expenses, DateOf);
    var window := Latest(expenses[..]);
    if |window| < 7 {
      assert CashFlow(expenses[..], daysAhead, today, randoms) == None;
      return None;
    }
    var average := Average(window);
    var prediction := ForecastDays(today, average, randoms, daysAhead);
    r := Some(Forecast(prediction, average, average * daysAhead as real));
    CashFlowSome(expenses[..], daysAhead, today, randoms);
    assert r.value.prediction == CashFlow(expenses[..], daysAhead, today, randoms).value.prediction;
    assert r.value.totalPredicted == CashFlow(expenses[..], daysAhead, today, randoms).value.totalPredicted;
  }

  // ---------------------------------------------------------- stock risk

  datatype StockRisk = StockRisk(level: string, impact: string, items: seq<string>)

  datatype StockAnalysis = StockAnalysis(
    risks: seq<StockRisk>,
    recommendations: seq<Recommendation>,
    lowStockCount: nat,
    outOfStockCount: nat)

  /** Active and at or below its own reorder level. */
  predicate IsLowStock(it: Inventory.Item)
  {
    it.quantity <= it.reorderLevel && it.status == "active"
  }

  /** Active with nothing left. */
  predicate IsOutOfStock(it: Inventory.Item)
  {
    it.quantity == 0.0 && it.status == "active"
  }

  /** `items.map(i => i.name)` */
  function Names(items: seq<Inventory.Item>): (r: seq<string>)
    ensures |r| == |items|
    ensures forall i :: 0 <= i < |items| ==> r[i] == items[i].name
  {
    if items == [] then [] else Names(items[..|items| - 1]) + [items[|items| - 1].name]
  }

  /** `i => i.totalValue > avgValue * 3` */
  function AboveMean(mean: real): Inventory.Item -> bool
  {
    (it: Inventory.Item) => it.totalValue > mean * 3.0
  }

  /** The mean value over ALL items, inactive ones included. */
  function MeanValue(items: seq<Inventory.Item>): (m: real)
    requires |items| > 0
    ensures m * |items| as real == Sum(items, Inventory.ValueOf)
  {
    Sum(items, Inventory.ValueOf) / |items| as real
  }

  /**
   * Items worth more than three times the mean value; none when there are
   * no items, where the mean is not a number.
   */
  function Overstocked(items: seq<Inventory.Item>): seq<Inventory.Item>
  {
    if |items| == 0 then [] else Filter(items, AboveMean(MeanValue(items)))
  }

  /** The overstocked items are exactly the items worth more than three times the mean, in order. */
  lemma OverstockedSpec(items: seq<Inventory.Item>)
    ensures |items| == 0 ==> Overstocked(items) == []
    ensures |items| > 0 ==>
              && (forall it | it in Overstocked(items) :: it in items && it.totalValue > 3.0 * MeanValue(items))
              && (forall it | it in items && it.totalValue > 3.0 * MeanValue(items) :: it in Overstocked(items))
  {
    if |items| > 0 {
      var above := AboveMean(MeanValue(items));
      FilterMembers(items, above);
      assert forall it :: above(it) == (it.totalValue > MeanValue(items) * 3.0);
    }
  }

  function Reorder(names: seq<string>): Recommendation
  {
    Recommendation(None, "Immediate Reorder", "high", names)
  }

  const Replenish := Recommendation(None, "Stock Replenishment", "medium", [])

  function Optimize(names: seq<string>): Recommendation
  {
    Recommendation(None, "Inventory Optimization", "low", names)
  }

  /** The recommendations pushed for the out-of-stock, low-stock and overstocked items. */
  function StockRecommendations(outOfStock: seq<Inventory.Item>, lowStock: seq<Inventory.Item>,
                                highValue: seq<Inventory.Item>): seq<Recommendation>
  {
    (if |outOfStock| > 0 then [Reorder(Names(outOfStock))] else [])
      + (if |lowStock| > 0 then [Replenish] else [])
      + (if |highValue| > 0 then [Optimize(Names(highValue))] else [])
  }

  lemma StockRecommendationsSpec(outOfStock: seq<Inventory.Item>, lowStock: seq<Inventory.Item>,
                                 highValue: seq<Inventory.Item>)
    ensures var r := StockRecommendations(outOfStock, lowStock, highValue);
            && |r| <= 3
            && (Reorder(Names(outOfStock)) in r <==> |outOfStock| > 0)
            && (Replenish in r <==> |lowStock| > 0)
            && (Optimize(Names(highValue)) in r <==> |highValue| > 0)
  {
  }

  /** The risks pushed for the out-of-stock and the low-stock items. */
  function StockRisks(outOfStock: seq<Inventory.Item>, lowStock: seq<Inventory.Item>): seq<StockRisk>
  {
    (if |outOfStock| > 0 then [StockRisk("critical", "high", Names(outOfStock))] else [])
      + (if |lowStock| > 0 then [StockRisk("warning", "medium", Names(lowStock))] else [])
  }

  lemma StockRisksSpec(outOfStock: seq<Inventory.Item>, lowStock: seq<Inventory.Item>)
    ensures var r := StockRisks(outOfStock, lowStock);
            && |r| <= 2
            && (StockRisk("critical", "high", Names(outOfStock)) in r <==> |outOfStock| > 0)
            && (StockRisk("warning", "medium", Names(lowStock)) in r <==> |lowStock| > 0)
            && (forall k | 0 <= k < |r| :: r[k].level == "critical" ==> k == 0)
  {
  }

  /** What `analyzeInventoryRisk(items)` returns. */
  function InventoryAnalysis(items: seq<Inventory.Item>): StockAnalysis
  {
    var lowStock := Filter(items, IsLowStock);
    var outOfStock := Filter(items, IsOutOfStock);
    var highValue := Overstocked(items);
    StockAnalysis(
      StockRisks(outOfStock, lowStock),
      StockRecommendations(outOfStock, lowStock, highValue),
      |lowStock|,
      |outOfStock|)
  }

  /**
   * The counts are those of the active low-stock and out-of-stock items;
   * a critical risk naming every out-of-stock item is there exactly when
   * there is one, and comes first; a warning naming every low-stock item is
   * there exactly when there is one.
   */
  lemma InventoryRisksSpec(items: seq<Inventory.Item>)
    ensures var r := InventoryAnalysis(items);
            && r.lowStockCount == Count(items, IsLowStock)
            && r.outOfStockCount == Count(items, IsOutOfStock)
            && |r.risks| <= 2
            && (StockRisk("critical", "high", Names(Filter(items, IsOutOfStock))) in r.risks <==> r.outOfStockCount > 0)
            && (StockRisk("warning", "medium", Names(Filter(items, IsLowStock))) in r.risks <==> r.lowStockCount > 0)
            && (forall k | 0 <= k < |r.risks| :: r.risks[k].level == "critical" ==> k == 0)
  {
    StockRisksSpec(Filter(items, IsOutOfStock), Filter(items, IsLowStock));
  }

  /**
   * An immediate reorder of every out-of-stock item is recommended exactly
   * when there is one, a replenishment exactly when an item is low on
   * stock, and an optimization naming the overstocked items exactly when
   * there are some.
   */
  lemma InventoryRecommendationsSpec(items: seq<Inventory.Item>)
    ensures var r := InventoryAnalysis(items);
            && |r.recommendations| <= 3
            && (Reorder(Names(Filter(items, IsOutOfStock))) in r.recommendations <==> r.outOfStockCount > 0)
            && (Replenish in r.recommendations <==> r.lowStockCount > 0)
            && (Optimize(Names(Overstocked(items))) in r.recommendations <==> Overstocked(items) != [])
  {
    StockRecommendationsSpec(Filter(items, IsOutOfStock), Filter(items, IsLowStock), Overstocked(items));
  }

  /**
   * `analyzeInventoryRisk(items)`: pushes a critical risk and an immediate
   * reorder when active items are out of stock, a warning and a
   * replenishment when active items are at or below their reorder level,
   * and an optimization suggestion when some items are overstocked.
   */
  method AnalyzeInventoryRisk(items: seq<Inventory.Item>) returns (r: StockAnalysis)
    ensures r == InventoryAnalysis(items)
  {
    var lowStock := Filter(items, IsLowStock);
    var outOfStock := Filter(items, IsOutOfStock);
    var risks: seq<StockRisk> := [];
    var recommendations: seq<Recommendation> := [];
    if |outOfStock| > 0 {
      risks := risks + [StockRisk("critical", "high", Names(outOfStock))];
      recommendations := recommendations + [Reorder(Names(outOfStock))];
    }
    ghost var reorder := recommendations;
    if |lowStock| > 0 {
      risks := risks + [StockRisk("warning", "medium", Names(lowStock))];
      recommendations := recommendations + [Replenish];
    }
    assert risks == StockRisks(outOfStock, lowStock);
    assert recommendations == reorder + (if |lowStock| > 0 then [Replenish] else []);
    var highValue := Overstocked(items);
    if |highValue| > 0 {
      recommendations := recommendations + [Optimize(Names(highValue))];
    }
    assert recommendations == StockRecommendations(outOfStock, lowStock, highValue);
    r := StockAnalysis(risks, recommendations, |lowStock|, |outOfStock|);
  }

  /**
   * With no negative reorder level, every out-of-stock item is also a
   * low-stock item, so the out-of-stock count never exceeds the low-stock
   * count.
   */
  lemma OutOfStockIsLowStock(items: seq<Inventory.Item>)
    requires forall it | it in items :: it.reorderLevel >= 0.0
    ensures forall it | it in Filter(items, IsOutOfStock) :: it in Filter(items, IsLowStock)
    ensures Count(items, IsOutOfStock) <= Count(items, IsLowStock)
  {
    FilterMembers(items, IsOutOfStock);
    FilterMembers(items, IsLowStock);
    FilterSubsumed(items, IsLowStock, IsOutOfStock);
  }
}
