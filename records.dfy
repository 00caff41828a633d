/**
 * The records the budget core works on, and the queries over them that
 * several components share. Money is `real` (an exact stand-in for the
 * JavaScript number), calendar dates are day numbers, ids are opaque strings.
 * Fields that the core only carries along (descriptions, vendors, receipt
 * numbers, timestamps) are not modelled.
 */
module Records {
  import opened Seqs

  datatype Option<T> = None | Some(value: T)

  datatype Result<T, E> = Ok(value: T) | Err(error: E)

  /**
   * JavaScript `s || fallback` for an optional string: a missing value and
   * the empty string are both falsy.
   */
  function OrElse(s: Option<string>, fallback: string): string
  {
    if s.Some? && s.value != "" then s.value else fallback
  }

  datatype Project = Project(
    id: string,
    name: string,
    budget: real,
    spent: real,    // cached sum of the amounts of the project's expenses
    status: string)

  datatype Expense = Expense(
    id: string,
    projectId: string,
    category: string,
    expenseType: Option<string>,    // "capital" or "resource"; may be absent
    amount: real,
    date: int,
    status: string)

  function IdOf(p: Project): string { p.id }
  function BudgetOf(p: Project): real { p.budget }
  function ExpenseIdOf(e: Expense): string { e.id }
  function ProjectIdOf(e: Expense): string { e.projectId }
  function AmountOf(e: Expense): real { e.amount }
  function DateOf(e: Expense): int { e.date }

  /** `expenses.filter(e => e.projectId === projectId)` */
  function ExpensesOf(expenses: seq<Expense>, projectId: string): seq<Expense>
  {
    Filter(expenses, KeyIs(ProjectIdOf, projectId))
  }

  /** `expenses.reduce((sum, e) => sum + e.amount, 0)` */
  function SumAmounts(expenses: seq<Expense>): real
  {
    Sum(expenses, AmountOf)
  }

  /** The total amount of the expenses recorded against one project. */
  function SpentOn(expenses: seq<Expense>, projectId: string): real
  {
    SumAmounts(ExpensesOf(expenses, projectId))
  }

  /** `projects.reduce((sum, p) => sum + p.budget, 0)` */
  function TotalBudget(projects: seq<Project>): real
  {
    Sum(projects, BudgetOf)
  }

  /** Every project has a positive budget, so percentages of it are defined. */
  ghost predicate PositiveBudgets(projects: seq<Project>)
  {
    forall p | p in projects :: p.budget > 0.0
  }

  /** A portfolio of projects with positive budgets has a positive total budget. */
  lemma TotalBudgetPositive(projects: seq<Project>)
    requires |projects| > 0 && PositiveBudgets(projects)
    ensures TotalBudget(projects) > 0.0
  {
    SumPositive(projects, BudgetOf);
  }

  /**
   * A percentage of a positive budget passes a threshold exactly when the
   * amount passes the same fraction of the budget.
   */
  lemma PercentThreshold(spent: real, budget: real, t: real)
    requires budget > 0.0
    ensures spent / budget * 100.0 >= t <==> spent >= t / 100.0 * budget
    ensures spent / budget * 100.0 > t <==> spent > t / 100.0 * budget
  {
    var q := spent / budget;
    assert q * budget == spent;
    assert q * 100.0 >= t <==> q >= t / 100.0;
    assert q >= t / 100.0 <==> q * budget >= t / 100.0 * budget;
    assert q * 100.0 > t <==> q > t / 100.0;
    assert q > t / 100.0 <==> q * budget > t / 100.0 * budget;
  }

  /** For a negative budget the comparison turns round. */
  lemma NegativePercentThreshold(spent: real, budget: real, t: real)
    requires budget < 0.0
    ensures spent / budget * 100.0 >= t <==> spent <= t / 100.0 * budget
  {
    var q := spent / budget;
    assert q * budget == spent;
    assert q * 100.0 >= t <==> q >= t / 100.0;
    assert q >= t / 100.0 <==> q * budget <= t / 100.0 * budget;
  }
}
