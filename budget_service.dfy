/**
 * The budget aggregation service: creating project and expense records,
 * per-project budget figures, grouping expenses by category and by
 * capital/resource type, and the report over an optional date range.
 */
module BudgetService {
  import opened Seqs
  import opened Grouping
  import opened Records

  // ---------------------------------------------------------------- records

  /** The form data a new project is created from. */
  datatype ProjectData = ProjectData(
    id: Option<string>,    // spread after the generated id, so a given id wins
    name: string,
    budget: real,
    status: Option<string>)

  /** The form data a new expense is created from. */
  datatype ExpenseData = ExpenseData(
    id: Option<string>,
    projectId: string,
    category: string,
    expenseType: Option<string>,
    amount: real,
    date: int,
    status: Option<string>)

  /**
   * `createProject`: the id is generated from the clock unless the data
   * carries one; `spent` always starts at 0 and `status` defaults to
   * "planning" when none is given.
   */
  function CreateProject(data: ProjectData, generatedId: string): (p: Project)
    ensures p.spent == 0.0
    ensures p.name == data.name && p.budget == data.budget
    ensures p.id == (if data.id.Some? then data.id.value else generatedId)
    ensures p.status != ""
    ensures data.status.Some? && data.status.value != "" ==> p.status == data.status.value
    ensures data.status.None? || data.status.value == "" ==> p.status == "planning"
  {
    Project(
      if data.id.Some? then data.id.value else generatedId,
      data.name, data.budget, 0.0, OrElse(data.status, "planning"))
  }

  /** `createExpense`: every field is copied and `status` defaults to "pending". */
  function CreateExpense(data: ExpenseData, generatedId: string): (e: Expense)
    ensures e.id == (if data.id.Some? then data.id.value else generatedId)
    ensures e.projectId == data.projectId && e.category == data.category
    ensures e.expenseType == data.expenseType && e.amount == data.amount && e.date == data.date
    ensures e.status != ""
    ensures data.status.Some? && data.status.value != "" ==> e.status == data.status.value
    ensures data.status.None? || data.status.value == "" ==> e.status == "pending"
  {
    Expense(
      if data.id.Some? then data.id.value else generatedId,
      data.projectId, data.category, data.expenseType, data.amount, data.date,
      OrElse(data.status, "pending"))
  }

  // ------------------------------------------------------- project figures

  datatype BudgetSummary = BudgetSummary(
    budget: real,
    spent: real,
    remaining: real,
    percentUsed: real,
    isOverBudget: bool)

  /**
   * `calculateProjectBudget`: `spent` re-sums the project's expenses,
   * `percentUsed` is `spent / budget * 100` capped at 100, and the project
   * is over budget exactly when it spent strictly more than its budget.
   */
  function CalculateProjectBudget(project: Project, expenses: seq<Expense>): (r: BudgetSummary)
    requires project.budget > 0.0
    ensures r.budget == project.budget
    ensures r.spent == SpentOn(expenses, project.id)
    ensures r.remaining == project.budget - r.spent
    ensures r.percentUsed <= 100.0 && r.percentUsed <= r.spent / project.budget * 100.0
    ensures r.percentUsed == 100.0 || r.percentUsed == r.spent / project.budget * 100.0
    ensures r.isOverBudget <==> r.spent > project.budget
    ensures r.isOverBudget ==> r.percentUsed == 100.0 && r.remaining < 0.0
  {
    var spent := SpentOn(expenses, project.id);
    var percent := spent / project.budget * 100.0;
    BudgetSummary(
      project.budget, spent, project.budget - spent,
      if percent < 100.0 then percent else 100.0,
      spent > project.budget)
  }

  // ----------------------------------------------------------- by category

  datatype CategoryGroup = CategoryGroup(
    category: string,
    total: real,
    count: nat,
    items: seq<Expense>)

  function CategoryOf(e: Expense): string { e.category }

  /** `existing.total += amount; existing.count++; existing.items.push(e)` */
  function Absorb(g: CategoryGroup, e: Expense): CategoryGroup
  {
    g.(total := g.total + e.amount, count := g.count + 1, items := g.items + [e])
  }

  function Summarize(entry: (string, seq<Expense>)): CategoryGroup
  {
    CategoryGroup(entry.0, SumAmounts(entry.1), |entry.1|, entry.1)
  }

  function Summaries(groups: seq<(string, seq<Expense>)>): (r: seq<CategoryGroup>)
    ensures |r| == |groups|
    ensures forall i :: 0 <= i < |groups| ==> r[i] == Summarize(groups[i])
  {
    if groups == [] then [] else Summaries(groups[..|groups| - 1]) + [Summarize(groups[|groups| - 1])]
  }

  /** `Object.values(byCategory)` as `getExpensesByCategory` leaves it. */
  function ByCategory(expenses: seq<Expense>): seq<CategoryGroup>
  {
    Summaries(Group(expenses, CategoryOf))
  }

  /** `byCategory[category]`: the index of the group for `category`, or `|groups|`. */
  function FindCategory(groups: seq<CategoryGroup>, category: string): (i: nat)
    ensures i <= |groups|
    ensures i < |groups| ==> groups[i].category == category
    ensures forall m :: 0 <= m < i ==> groups[m].category != category
  {
    if groups == [] then 0
    else if groups[0].category == category then 0
    else 1 + FindCategory(groups[1..], category)
  }

  lemma {:induction false} FindCategorySummaries(groups: seq<(string, seq<Expense>)>, category: string)
    ensures FindCategory(Summaries(groups), category) == IndexOf(groups, category)
  {
    if groups != [] {
      FindCategorySummaries(groups[1..], category);
      assert Summaries(groups)[1..] == Summaries(groups[1..]);
    }
  }

  function SumCounts(groups: seq<CategoryGroup>): nat
  {
    if groups == [] then 0 else SumCounts(groups[..|groups| - 1]) + groups[|groups| - 1].count
  }

  lemma {:induction false} SumCountsSummaries(groups: seq<(string, seq<Expense>)>)
    ensures SumCounts(Summaries(groups)) == TotalSize(groups)
  {
    if groups != [] {
      var n := |groups| - 1;
      SumCountsSummaries(groups[..n]);
      assert Summaries(groups)[..n] == Summaries(groups[..n]);
    }
  }

  /**
   * What `getExpensesByCategory` returns: exactly one group per distinct
   * category, each holding the expenses of that category in input order,
   * with `count` their number and `total` the sum of their amounts; the
   * counts add up to the number of expenses.
   */
  lemma ByCategorySpec(expenses: seq<Expense>)
    ensures forall i, j :: 0 <= i < j < |ByCategory(expenses)| ==>
              ByCategory(expenses)[i].category != ByCategory(expenses)[j].category
    ensures forall e | e in expenses ::
              FindCategory(ByCategory(expenses), e.category) < |ByCategory(expenses)|
    ensures forall g | g in ByCategory(expenses) ::
              && g.items == Filter(expenses, KeyIs(CategoryOf, g.category))
              && g.count == |g.items|
              && g.total == SumAmounts(g.items)
    ensures forall g | g in ByCategory(expenses) ::
              g.count > 0 && exists e | e in expenses :: e.category == g.category
    ensures SumCounts(ByCategory(expenses)) == |expenses|
  {
    ByCategoryGroupsOccur(expenses);
    var groups := Group(expenses, CategoryOf);
    GroupShape(expenses, CategoryOf);
    GroupTotalSize(expenses, CategoryOf);
    SumCountsSummaries(groups);
    forall e | e in expenses
      ensures FindCategory(ByCategory(expenses), e.category) < |ByCategory(expenses)|
    {
      FindCategorySummaries(groups, e.category);
      assert IndexOf(groups, CategoryOf(e)) < |groups|;
    }
  }

  /** No group without an expense: each group's category is that of some expense. */
  lemma ByCategoryGroupsOccur(expenses: seq<Expense>)
    ensures forall g | g in ByCategory(expenses) ::
              g.count > 0 && exists e | e in expenses :: e.category == g.category
  {
    var groups := Group(expenses, CategoryOf);
    GroupSpec(expenses, CategoryOf);
    forall g | g in ByCategory(expenses)
      ensures g.count > 0 && exists e | e in expenses :: e.category == g.category
    {
      var i :| 0 <= i < |groups| && ByCategory(expenses)[i] == g;
      assert g == Summarize(groups[i]);
      assert groups[i] in groups;
      var e :| e in expenses && CategoryOf(e) == groups[i].0;
      assert e.category == g.category;
    }
  }

  lemma ByCategoryStep(expenses: seq<Expense>, e: Expense, groups: seq<CategoryGroup>, i: nat)
    requires groups == ByCategory(expenses) && i == FindCategory(groups, e.category)
    ensures ByCategory(expenses + [e]) ==
              if i < |groups| then groups[i := Absorb(groups[i], e)]
              else groups + [CategoryGroup(e.category, 0.0 + e.amount, 1, [e])]
  {
    var g := Group(expenses, CategoryOf);
    var g' := AddTo(g, e.category, e);
    ByCategoryAppend(expenses, e);
    FindCategorySummaries(g, e.category);
    assert groups == Summaries(g) && |groups| == |g|;
    if i < |g| {
      assert g' == g[i := (g[i].0, g[i].1 + [e])];
      ExistingCategoryStep(g, i, e, g');
      assert ByCategory(expenses + [e]) == Summaries(g');
      assert ByCategory(expenses + [e]) == groups[i := Absorb(groups[i], e)];
    } else {
      assert g' == g + [(e.category, [e])];
      NewCategoryStep(g, e);
      assert ByCategory(expenses + [e]) == groups + [CategoryGroup(e.category, 0.0 + e.amount, 1, [e])];
    }
  }

  /** Grouping one more expense is one `AddTo` step on the groups so far. */
  lemma ByCategoryAppend(expenses: seq<Expense>, e: Expense)
    ensures ByCategory(expenses + [e]) == Summaries(AddTo(Group(expenses, CategoryOf), e.category, e))
  {
    assert (expenses + [e])[..|expenses|] == expenses;
  }

  /** Adding an expense to the group at `i` updates that group's summary alone. */
  lemma ExistingCategoryStep(g: seq<(string, seq<Expense>)>, i: nat, e: Expense, g': seq<(string, seq<Expense>)>)
    requires i < |g| && g' == g[i := (g[i].0, g[i].1 + [e])]
    ensures |Summaries(g')| == |g|
    ensures Summaries(g')[i] == Absorb(Summaries(g)[i], e)
    ensures forall j :: 0 <= j < |g| && j != i ==> Summaries(g')[j] == Summaries(g)[j]
    ensures Summaries(g') == Summaries(g)[i := Absorb(Summaries(g)[i], e)]
  {
    SummarizeAppend(g[i].0, g[i].1, e);
    assert g[i] == (g[i].0, g[i].1);
    var groups := Summaries(g);
    var updated := groups[i := Absorb(groups[i], e)];
    assert forall j :: 0 <= j < |g| ==> Summaries(g')[j] == updated[j];
  }

  /** One more expense in a group adds its amount to the total and one to the count. */
  lemma SummarizeAppend(category: string, items: seq<Expense>, e: Expense)
    ensures Summarize((category, items + [e])) == Absorb(Summarize((category, items)), e)
  {
    assert (items + [e])[..|items|] == items;
  }

  /** Replacing one group replaces its summary and no other. */
  lemma SummariesUpdate(g: seq<(string, seq<Expense>)>, i: nat, entry: (string, seq<Expense>))
    requires i < |g|
    ensures Summaries(g[i := entry]) == Summaries(g)[i := Summarize(entry)]
  {
  }

  /** An expense of a category not seen yet opens a new group at the end. */
  lemma NewCategoryStep(g: seq<(string, seq<Expense>)>, e: Expense)
    ensures Summaries(g + [(e.category, [e])]) == Summaries(g) + [CategoryGroup(e.category, 0.0 + e.amount, 1, [e])]
  {
    SumSingleton(e, AmountOf);
    assert (g + [(e.category, [e])])[..|g|] == g;
  }

  /** `getExpensesByCategory`, walking the expenses as its `forEach` does. */
  method GetExpensesByCategory(expenses: seq<Expense>) returns (groups: seq<CategoryGroup>)
    ensures groups == ByCategory(expenses)
  {
    groups := [];
    ghost var raw: seq<(string, seq<Expense>)> := [];
    for n := 0 to |expenses|
      invariant raw == Group(expenses[..n], CategoryOf) && groups == Summaries(raw)
    {
      var e := expenses[n];
      var i := FindCategory(groups, e.category);
      FindCategorySummaries(raw, e.category);
      GroupPrefixStep(expenses, CategoryOf, n);
      ghost var next := AddTo(raw, e.category, e);
      if i < |groups| {
        assert next == raw[i := (raw[i].0, raw[i].1 + [e])];
        ExistingCategoryStep(raw, i, e, next);
        groups := groups[i := Absorb(groups[i], e)];
      } else {
        assert next == raw + [(e.category, [e])];
        NewCategoryStep(raw, e);
        // a fresh group with total 0 and no items, then the expense added to it
        groups := groups + [CategoryGroup(e.category, 0.0 + e.amount, 1, [e])];
      }
      raw := next;
    }
    assert expenses[..|expenses|] == expenses;
  }

  // --------------------------------------------------------------- by type

  datatype TypeBucket = TypeBucket(total: real, count: nat, items: seq<Expense>)

  datatype TypeBuckets = TypeBuckets(capital: TypeBucket, resource: TypeBucket)

  /** `byType[type]` is undefined for this type, so the update throws. */
  datatype TypeError = UnknownType(name: string)

  /** `expense.type || 'resource'` */
  function TypeOf(e: Expense): string
  {
    OrElse(e.expenseType, "resource")
  }

  function Add(bucket: TypeBucket, e: Expense): TypeBucket
  {
    TypeBucket(bucket.total + e.amount, bucket.count + 1, bucket.items + [e])
  }

  /** The buckets `getExpensesByType` builds, or the error it throws. */
  function ByType(expenses: seq<Expense>): Result<TypeBuckets, TypeError>
  {
    if expenses == [] then Ok(TypeBuckets(TypeBucket(0.0, 0, []), TypeBucket(0.0, 0, [])))
    else
      var e := expenses[|expenses| - 1];
      match ByType(expenses[..|expenses| - 1])
      case Err(err) => Err(err)
      case Ok(b) =>
        if TypeOf(e) == "capital" then Ok(b.(capital := Add(b.capital, e)))
        else if TypeOf(e) == "resource" then Ok(b.(resource := Add(b.resource, e)))
        else Err(UnknownType(TypeOf(e)))
  }

  ghost predicate KnownType(e: Expense)
  {
    TypeOf(e) == "capital" || TypeOf(e) == "resource"
  }

  /** A bucket that holds exactly `items`, with their number and total. */
  ghost predicate BucketOf(b: TypeBucket, items: seq<Expense>)
  {
    b.items == items && b.count == |items| && b.total == SumAmounts(items)
  }

  /**
   * `getExpensesByType` succeeds exactly when every expense's type is absent,
   * empty, "capital" or "resource"; then `capital` holds the capital
   * expenses and `resource` all the others, in input order, and otherwise
   * the error names a type that occurs.
   */
  lemma {:induction false} ByTypeSpec(expenses: seq<Expense>)
    ensures ByType(expenses).Ok? <==> forall e | e in expenses :: KnownType(e)
    ensures ByType(expenses).Ok? ==>
              && BucketOf(ByType(expenses).value.capital, Filter(expenses, KeyIs(TypeOf, "capital")))
              && BucketOf(ByType(expenses).value.resource, Filter(expenses, KeyIs(TypeOf, "resource")))
    ensures ByType(expenses).Err? ==>
              exists e | e in expenses :: !KnownType(e) && ByType(expenses).error.name == TypeOf(e)
  {
    ByTypeOutcome(expenses);
    ByTypeBuckets(expenses);
  }

  lemma {:induction false} ByTypeOutcome(expenses: seq<Expense>)
    ensures ByType(expenses).Ok? <==> forall e | e in expenses :: KnownType(e)
    ensures ByType(expenses).Err? ==>
              exists e | e in expenses :: !KnownType(e) && ByType(expenses).error.name == TypeOf(e)
  {
    if expenses != [] {
      var init, e := expenses[..|expenses| - 1], expenses[|expenses| - 1];
      assert expenses == init + [e];
      assert forall x | x in expenses :: x in init || x == e;
      ByTypeOutcome(init);
      if ByType(init).Err? {
        var w :| w in init && !KnownType(w) && ByType(init).error.name == TypeOf(w);
        assert w in expenses;
      } else if !KnownType(e) {
        assert ByType(expenses) == Err(UnknownType(TypeOf(e)));
      }
    }
  }

  lemma {:induction false} ByTypeBuckets(expenses: seq<Expense>)
    ensures ByType(expenses).Ok? ==>
              && BucketOf(ByType(expenses).value.capital, Filter(expenses, KeyIs(TypeOf, "capital")))
              && BucketOf(ByType(expenses).value.resource, Filter(expenses, KeyIs(TypeOf, "resource")))
  {
    if expenses != [] && ByType(expenses).Ok? {
      var init, e := expenses[..|expenses| - 1], expenses[|expenses| - 1];
      assert expenses == init + [e];
      assert ByType(init).Ok?;
      ByTypeBuckets(init);
      var b := ByType(init).value;
      var capital, resource := KeyIs(TypeOf, "capital"), KeyIs(TypeOf, "resource");
      FilterConcat(init, [e], capital);
      FilterConcat(init, [e], resource);
      FilterSingleton(e, capital);
      FilterSingleton(e, resource);
      assert capital(e) == (TypeOf(e) == "capital") && resource(e) == (TypeOf(e) == "resource");
      if TypeOf(e) == "capital" {
        assert ByType(expenses).value == b.(capital := Add(b.capital, e));
        BucketStep(b.capital, Filter(init, capital), e);
      } else {
        assert ByType(expenses).value == b.(resource := Add(b.resource, e));
        BucketStep(b.resource, Filter(init, resource), e);
      }
    }
  }

  /** Adding an expense to a bucket that holds `items` gives the bucket of `items + [e]`. */
  lemma BucketStep(b: TypeBucket, items: seq<Expense>, e: Expense)
    requires BucketOf(b, items)
    ensures BucketOf(Add(b, e), items + [e])
  {
    assert (items + [e])[..|items|] == items;
  }

  /**
   * The two buckets together account for every expense: their counts add up
   * to the number of expenses and their totals to the overall sum.
   */
  lemma ByTypeTotals(expenses: seq<Expense>)
    requires ByType(expenses).Ok?
    ensures var b := ByType(expenses).value;
            && b.capital.count + b.resource.count == |expenses|
            && b.capital.total + b.resource.total == SumAmounts(expenses)
  {
    ByTypeSpec(expenses);
    var capital := KeyIs(TypeOf, "capital");
    forall e | e in expenses ensures Not(capital)(e) == KeyIs(TypeOf, "resource")(e) {
    }
    FilterCongruent(expenses, Not(capital), KeyIs(TypeOf, "resource"));
    CountSplit(expenses, capital);
    SumSplit(expenses, AmountOf, capital);
  }

  /** `getExpensesByType`, walking the expenses as its `forEach` does. */
  method GetExpensesByType(expenses: seq<Expense>) returns (r: Result<TypeBuckets, TypeError>)
    ensures r == ByType(expenses)
  {
    var capital, resource := TypeBucket(0.0, 0, []), TypeBucket(0.0, 0, []);
    for n := 0 to |expenses|
      invariant ByType(expenses[..n]) == Ok(TypeBuckets(capital, resource))
    {
      var e := expenses[n];
      assert expenses[..n + 1][..n] == expenses[..n];
      var kind := OrElse(e.expenseType, "resource");
      if kind == "capital" {
        capital := TypeBucket(capital.total + e.amount, capital.count + 1, capital.items + [e]);
      } else if kind == "resource" {
        resource := TypeBucket(resource.total + e.amount, resource.count + 1, resource.items + [e]);
      } else {
        FailurePersists(expenses, n + 1);
        return Err(UnknownType(kind));
      }
    }
    assert expenses[..|expenses|] == expenses;
    r := Ok(TypeBuckets(capital, resource));
  }

  /** Once a prefix fails, the whole sequence fails with the same error. */
  lemma {:induction false} FailurePersists(expenses: seq<Expense>, n: nat)
    requires n <= |expenses| && ByType(expenses[..n]).Err?
    ensures ByType(expenses) == ByType(expenses[..n])
    decreases |expenses| - n
  {
    if n < |expenses| {
      assert expenses[..n + 1][..n] == expenses[..n];
      FailurePersists(expenses, n + 1);
    } else {
      assert expenses[..n] == expenses;
    }
  }

  // ---------------------------------------------------------------- report

  /** A report range; either bound may be missing (or empty). */
  datatype DateRange = DateRange(start: Option<int>, end: Option<int>)

  /** `{...project, ...calculateProjectBudget(project, filteredExpenses)}` */
  datatype ProjectReport = ProjectReport(project: Project, summary: BudgetSummary)

  datatype Report = Report(
    totalBudget: real,
    totalSpent: real,
    totalRemaining: real,
    percentUsed: Option<real>,    // None where the source divides by a zero total budget
    projectCount: nat,
    expenseCount: nat,
    byCategory: seq<CategoryGroup>,
    byType: TypeBuckets,
    projects: seq<ProjectReport>)

  function Within(start: int, end: int): Expense -> bool
  {
    (e: Expense) => start <= e.date <= end
  }

  /** The expenses a report covers: all of them unless both bounds are given. */
  function InRange(expenses: seq<Expense>, range: Option<DateRange>): seq<Expense>
  {
    if range.Some? && range.value.start.Some? && range.value.end.Some?
    then Filter(expenses, Within(range.value.start.value, range.value.end.value))
    else expenses
  }

  /**
   * The date filter of `generateReport` applies only when both bounds are
   * given, and then keeps exactly the expenses dated within the bounds,
   * both inclusive, in their original order.
   */
  lemma InRangeSpec(expenses: seq<Expense>, range: Option<DateRange>)
    ensures !(range.Some? && range.value.start.Some? && range.value.end.Some?) ==>
              InRange(expenses, range) == expenses
    ensures range.Some? && range.value.start.Some? && range.value.end.Some? ==>
              var start, end := range.value.start.value, range.value.end.value;
              && (forall e | e in InRange(expenses, range) :: e in expenses && start <= e.date <= end)
              && (forall e | e in expenses && start <= e.date <= end :: e in InRange(expenses, range))
  {
    if range.Some? && range.value.start.Some? && range.value.end.Some? {
      FilterMembers(expenses, Within(range.value.start.value, range.value.end.value));
    }
  }

  function ReportProject(p: Project, expenses: seq<Expense>): ProjectReport
    requires p.budget > 0.0
  {
    var summary := CalculateProjectBudget(p, expenses);
    ProjectReport(p.(spent := summary.spent), summary)
  }

  /**
   * `generateReport`: portfolio totals over the expenses in range, the
   * category and type breakdowns of those expenses, and every project with
   * its own figures over them; it fails when the type breakdown throws.
   */
  function GenerateReport(projects: seq<Project>, expenses: seq<Expense>, range: Option<DateRange>)
    : (r: Result<Report, TypeError>)
    requires PositiveBudgets(projects)
    ensures r.Err? <==> ByType(InRange(expenses, range)).Err?
    ensures r.Ok? ==>
              var filtered := InRange(expenses, range);
              && r.value.totalBudget == TotalBudget(projects)
              && r.value.totalSpent == SumAmounts(filtered)
              && r.value.totalRemaining == r.value.totalBudget - r.value.totalSpent
              && (r.value.percentUsed.None? <==> |projects| == 0)
              && (|projects| > 0 ==>
                    r.value.totalBudget > 0.0 &&
                    r.value.percentUsed == Some(r.value.totalSpent / r.value.totalBudget * 100.0))
              && r.value.projectCount == |projects|
              && r.value.expenseCount == |filtered|
              && r.value.byCategory == ByCategory(filtered)
              && r.value.byType == ByType(filtered).value
              && |r.value.projects| == |projects|
              && forall i :: 0 <= i < |projects| ==>
                   && r.value.projects[i].project == projects[i].(spent := SpentOn(filtered, projects[i].id))
                   && r.value.projects[i].summary == CalculateProjectBudget(projects[i], filtered)
  {
    var filtered := InRange(expenses, range);
    var totalBudget := TotalBudget(projects);
    var totalSpent := SumAmounts(filtered);
    match ByType(filtered)
    case Err(err) => Err(err)
    case Ok(byType) =>
      Ok(Report(
        totalBudget, totalSpent, totalBudget - totalSpent,
        if |projects| == 0 then None
        else TotalBudgetPositive(projects); Some(totalSpent / totalBudget * 100.0),
        |projects|, |filtered|,
        ByCategory(filtered), byType,
        seq(|projects|, i requires 0 <= i < |projects| => ReportProject(projects[i], filtered))))
  }
}
