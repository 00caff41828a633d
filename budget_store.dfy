/**
 * The project and expense store behind the budget pages: two lists that
 * every add, update and delete replaces, with each project's cached
 * `spent` re-summed from its expenses after an expense changes. React
 * state, persistence and notifications are not part of the model; ids are
 * parameters.
 */
module BudgetStore {
  import opened Seqs
  import opened Records
  import opened BudgetService

  /** The fields `updateProject` merges in; `None` keeps a field. */
  datatype ProjectUpdate = ProjectUpdate(
    name: Option<string>,
    budget: Option<real>,
    spent: Option<real>,
    status: Option<string>)

  /** The fields `updateExpense` merges in; `None` keeps a field. */
  datatype ExpenseUpdate = ExpenseUpdate(
    projectId: Option<string>,
    category: Option<string>,
    expenseType: Option<string>,
    amount: Option<real>,
    date: Option<int>,
    status: Option<string>)

  function MergeProject(p: Project, u: ProjectUpdate): Project
  {
    p.(name := if u.name.Some? then u.name.value else p.name,
       budget := if u.budget.Some? then u.budget.value else p.budget,
       spent := if u.spent.Some? then u.spent.value else p.spent,
       status := if u.status.Some? then u.status.value else p.status)
  }

  function MergeExpense(e: Expense, u: ExpenseUpdate): Expense
  {
    e.(projectId := if u.projectId.Some? then u.projectId.value else e.projectId,
       category := if u.category.Some? then u.category.value else e.category,
       expenseType := if u.expenseType.Some? then u.expenseType else e.expenseType,
       amount := if u.amount.Some? then u.amount.value else e.amount,
       date := if u.date.Some? then u.date.value else e.date,
       status := if u.status.Some? then u.status.value else e.status)
  }

  /** `projects.map(p => p.id === id ? { ...p, ...u } : p)` */
  function UpdateProjects(projects: seq<Project>, id: string, u: ProjectUpdate): seq<Project>
  {
    seq(|projects|, i requires 0 <= i < |projects| =>
      if projects[i].id == id then MergeProject(projects[i], u) else projects[i])
  }

  /** `expenses.map(e => e.id === id ? { ...e, ...u } : e)` */
  function UpdateExpenses(expenses: seq<Expense>, id: string, u: ExpenseUpdate): seq<Expense>
  {
    seq(|expenses|, i requires 0 <= i < |expenses| =>
      if expenses[i].id == id then MergeExpense(expenses[i], u) else expenses[i])
  }

  function SpentOnly(spent: real): ProjectUpdate
  {
    ProjectUpdate(None, None, Some(spent), None)
  }

  /** `updateProject(projectId, { spent: <sum of its expenses> })` */
  function Resum(projects: seq<Project>, expenses: seq<Expense>, projectId: string): seq<Project>
  {
    UpdateProjects(projects, projectId, SpentOnly(SpentOn(expenses, projectId)))
  }

  /** Every project's cached `spent` is the sum of its expenses. */
  ghost predicate Consistent(projects: seq<Project>, expenses: seq<Expense>)
  {
    forall i :: 0 <= i < |projects| ==> projects[i].spent == SpentOn(expenses, projects[i].id)
  }

  ghost predicate UniqueExpenseIds(expenses: seq<Expense>)
  {
    forall i, j :: 0 <= i < j < |expenses| ==> expenses[i].id != expenses[j].id
  }

  /** Re-summing one project makes the store consistent when every other project already was. */
  lemma ResumConsistent(projects: seq<Project>, expenses: seq<Expense>, projectId: string)
    requires forall i :: 0 <= i < |projects| && projects[i].id != projectId ==>
               projects[i].spent == SpentOn(expenses, projects[i].id)
    ensures Consistent(Resum(projects, expenses, projectId), expenses)
  {
  }

  /** Appending an expense changes the spend of its own project only, by its amount. */
  lemma SpentOnAppend(expenses: seq<Expense>, e: Expense, projectId: string)
    ensures SpentOn(expenses + [e], projectId) ==
              SpentOn(expenses, projectId) + (if e.projectId == projectId then e.amount else 0.0)
  {
    var p := KeyIs(ProjectIdOf, projectId);
    FilterConcat(expenses, [e], p);
    FilterSingleton(e, p);
    assert p(e) == (ProjectIdOf(e) == projectId);
    SumConcat(Filter(expenses, p), Filter([e], p), AmountOf);
    if e.projectId == projectId {
      SumSingleton(e, AmountOf);
    }
  }

  /** The spend of a one-expense list. */
  lemma SpentOnSingle(e: Expense, projectId: string)
    ensures SpentOn([e], projectId) == if e.projectId == projectId then e.amount else 0.0
  {
    var p := KeyIs(ProjectIdOf, projectId);
    FilterSingleton(e, p);
    assert p(e) == (ProjectIdOf(e) == projectId);
    if e.projectId == projectId {
      SumSingleton(e, AmountOf);
    }
  }

  // ----------------------------------------------------------- transitions

  /** `addProject`: the created project goes at the end. */
  function AfterAddProject(projects: seq<Project>, data: ProjectData, generatedId: string): (r: seq<Project>)
    ensures |r| == |projects| + 1 && r[..|projects|] == projects
    ensures r[|projects|] == CreateProject(data, generatedId)
  {
    projects + [CreateProject(data, generatedId)]
  }

  /** A new project starts consistent when no stored expense already names its id. */
  lemma AddProjectKeepsConsistent(projects: seq<Project>, expenses: seq<Expense>, data: ProjectData, generatedId: string)
    requires Consistent(projects, expenses)
    requires forall e | e in expenses :: e.projectId != CreateProject(data, generatedId).id
    ensures Consistent(AfterAddProject(projects, data, generatedId), expenses)
  {
    var p := CreateProject(data, generatedId);
    FilterNone(expenses, KeyIs(ProjectIdOf, p.id));
  }

  /** Merging fields other than `spent` keeps every cached sum. */
  lemma UpdateProjectKeepsConsistent(projects: seq<Project>, expenses: seq<Expense>, id: string, u: ProjectUpdate)
    requires Consistent(projects, expenses) && u.spent.None?
    ensures Consistent(UpdateProjects(projects, id, u), expenses)
  {
  }

  /**
   * `updateProject` keeps the list's length and order: the projects with
   * the id get the merged fields and keep their id, every other project is
   * left as it was.
   */
  lemma UpdateProjectsSpec(projects: seq<Project>, id: string, u: ProjectUpdate)
    ensures |UpdateProjects(projects, id, u)| == |projects|
    ensures forall i | 0 <= i < |projects| && projects[i].id != id :: UpdateProjects(projects, id, u)[i] == projects[i]
    ensures forall i | 0 <= i < |projects| && projects[i].id == id ::
              && UpdateProjects(projects, id, u)[i] == MergeProject(projects[i], u)
              && UpdateProjects(projects, id, u)[i].id == id
              && (u.spent.Some? ==> UpdateProjects(projects, id, u)[i].spent == u.spent.value)
  {
  }

  /** `updateProject` with an unknown id changes nothing. */
  lemma UpdateProjectUnknown(projects: seq<Project>, id: string, u: ProjectUpdate)
    requires forall p | p in projects :: p.id != id
    ensures UpdateProjects(projects, id, u) == projects
  {
  }

  /** `deleteProject`: the project and every expense recorded against it go. */
  function AfterDeleteProject(projects: seq<Project>, expenses: seq<Expense>, id: string)
    : (r: (seq<Project>, seq<Expense>))
  {
    (Filter(projects, Not(KeyIs(IdOf, id))), Filter(expenses, Not(KeyIs(ProjectIdOf, id))))
  }

  /**
   * After `deleteProject` no project has the id and no expense names it;
   * every other project and expense stays, in order; the store stays
   * consistent.
   */
  lemma DeleteProjectSpec(projects: seq<Project>, expenses: seq<Expense>, id: string)
    ensures var (ps, es) := AfterDeleteProject(projects, expenses, id);
            && (forall p | p in ps :: p in projects && p.id != id)
            && (forall p | p in projects && p.id != id :: p in ps)
            && (forall e | e in es :: e in expenses && e.projectId != id)
            && (forall e | e in expenses && e.projectId != id :: e in es)
    ensures Consistent(projects, expenses) ==>
              var (ps, es) := AfterDeleteProject(projects, expenses, id);
              Consistent(ps, es)
  {
    var (ps, es) := AfterDeleteProject(projects, expenses, id);
    KeepOtherProjects(projects, id);
    KeepOtherExpenses(expenses, id);
    if Consistent(projects, expenses) {
      forall i | 0 <= i < |ps| ensures ps[i].spent == SpentOn(es, ps[i].id) {
        var p := ps[i];
        assert p in ps;
        assert p in projects && p.id != id;
        var k :| 0 <= k < |projects| && projects[k] == p;
        assert p.spent == SpentOn(expenses, p.id);
        CascadeKeepsOthers(expenses, id, p.id);
      }
    }
  }

  lemma KeepOtherProjects(projects: seq<Project>, id: string)
    ensures forall p | p in Filter(projects, Not(KeyIs(IdOf, id))) :: p in projects && p.id != id
    ensures forall p | p in projects && p.id != id :: p in Filter(projects, Not(KeyIs(IdOf, id)))
  {
    var keep := Not(KeyIs(IdOf, id));
    FilterMembers(projects, keep);
    forall p ensures keep(p) == (p.id != id) {
      assert keep(p) == !KeyIs(IdOf, id)(p);
      assert KeyIs(IdOf, id)(p) == (IdOf(p) == id);
    }
  }

  lemma KeepOtherExpenses(expenses: seq<Expense>, id: string)
    ensures forall e | e in Filter(expenses, Not(KeyIs(ProjectIdOf, id))) :: e in expenses && e.projectId != id
    ensures forall e | e in expenses && e.projectId != id :: e in Filter(expenses, Not(KeyIs(ProjectIdOf, id)))
  {
    var keep := Not(KeyIs(ProjectIdOf, id));
    FilterMembers(expenses, keep);
    forall e ensures keep(e) == (e.projectId != id) {
      assert keep(e) == !KeyIs(ProjectIdOf, id)(e);
      assert KeyIs(ProjectIdOf, id)(e) == (ProjectIdOf(e) == id);
    }
  }

  /** Removing the expenses of one project leaves the expenses of every other project as they were. */
  lemma CascadeKeepsOthers(expenses: seq<Expense>, id: string, other: string)
    requires other != id
    ensures ExpensesOf(Filter(expenses, Not(KeyIs(ProjectIdOf, id))), other) == ExpensesOf(expenses, other)
  {
    var keep := Not(KeyIs(ProjectIdOf, id));
    var mine := KeyIs(ProjectIdOf, other);
    forall x | x in expenses ensures mine(x) ==> keep(x) {
      assert mine(x) == (ProjectIdOf(x) == other);
      assert keep(x) == !KeyIs(ProjectIdOf, id)(x);
      assert KeyIs(ProjectIdOf, id)(x) == (ProjectIdOf(x) == id);
    }
    FilterSubsumed(expenses, keep, mine);
  }

  /**
   * `addExpense`: the created expense goes at the end and, when a project
   * has its project id, that project's `spent` is re-summed.
   */
  function AfterAddExpense(projects: seq<Project>, expenses: seq<Expense>, e: Expense)
    : (r: (seq<Project>, seq<Expense>))
  {
    var updated := expenses + [e];
    if Find(projects, IdOf, e.projectId) < |projects| then (Resum(projects, updated, e.projectId), updated)
    else (projects, updated)
  }

  /**
   * `addExpense` keeps the store consistent, and in a consistent store it
   * adds the expense's amount to its project's `spent` and leaves every
   * other project as it was.
   */
  lemma AddExpenseSpec(projects: seq<Project>, expenses: seq<Expense>, e: Expense)
    requires Consistent(projects, expenses)
    ensures var (ps, es) := AfterAddExpense(projects, expenses, e);
            && es == expenses + [e]
            && Consistent(ps, es)
            && |ps| == |projects|
            && forall i :: 0 <= i < |ps| ==>
                 ps[i] == if projects[i].id == e.projectId
                          then projects[i].(spent := projects[i].spent + e.amount)
                          else projects[i]
  {
    var es := expenses + [e];
    forall i | 0 <= i < |projects|
      ensures SpentOn(es, projects[i].id) ==
                projects[i].spent + (if e.projectId == projects[i].id then e.amount else 0.0)
    {
      SpentOnAppend(expenses, e, projects[i].id);
    }
    ResumConsistent(projects, es, e.projectId);
  }

  /**
   * `updateExpense` as written: the matching expense is merged, and only
   * the project the expense belonged to BEFORE the update is re-summed.
   */
  function AfterUpdateExpenseAsWritten(projects: seq<Project>, expenses: seq<Expense>, id: string, u: ExpenseUpdate)
    : (r: (seq<Project>, seq<Expense>))
  {
    var updated := UpdateExpenses(expenses, id, u);
    var i := Find(expenses, ExpenseIdOf, id);
    if i < |expenses| then (Resum(projects, updated, expenses[i].projectId), updated)
    else (projects, updated)
  }

  /** Moving an expense to another project leaves that project's `spent` stale. */
  lemma MovedExpenseLeavesStaleSpent()
    ensures var projects := [Project("p1", "Tower", 100.0, 10.0, "active"),
                             Project("p2", "Bridge", 100.0, 0.0, "active")];
            var expenses := [Expense("e1", "p1", "materials", None, 10.0, 0, "approved")];
            var u := ExpenseUpdate(Some("p2"), None, None, None, None, None);
            var (ps, es) := AfterUpdateExpenseAsWritten(projects, expenses, "e1", u);
            && Consistent(projects, expenses)
            && UniqueExpenseIds(expenses)
            && ps[1].spent == 0.0
            && SpentOn(es, "p2") == 10.0
            && !Consistent(ps, es)
  {
    var projects := [Project("p1", "Tower", 100.0, 10.0, "active"),
                     Project("p2", "Bridge", 100.0, 0.0, "active")];
    var e1 := Expense("e1", "p1", "materials", None, 10.0, 0, "approved");
    var u := ExpenseUpdate(Some("p2"), None, None, None, None, None);
    var moved := UpdateExpenses([e1], "e1", u);
    assert moved == [e1.(projectId := "p2")];
    SpentOnSingle(e1, "p1");
    SpentOnSingle(e1, "p2");
    SpentOnSingle(moved[0], "p1");
    SpentOnSingle(moved[0], "p2");
    assert Find([e1], ExpenseIdOf, "e1") == 0;
    var ps := Resum(projects, moved, "p1");
    assert ps[1] == projects[1];
    assert ps[1].spent != SpentOn(moved, ps[1].id);
  }

  /**
   * `updateExpense`, corrected: after merging, both the project the
   * expense left and the project it now belongs to are re-summed.
   */
  function AfterUpdateExpense(projects: seq<Project>, expenses: seq<Expense>, id: string, u: ExpenseUpdate)
    : (r: (seq<Project>, seq<Expense>))
  {
    var updated := UpdateExpenses(expenses, id, u);
    var i := Find(expenses, ExpenseIdOf, id);
    if i < |expenses| then
      var before := expenses[i].projectId;
      var after := MergeExpense(expenses[i], u).projectId;
      (Resum(Resum(projects, updated, before), updated, after), updated)
    else (projects, updated)
  }

  /** With unique expense ids, an update touches the expenses of at most two projects. */
  lemma UpdateExpensesOther(expenses: seq<Expense>, id: string, u: ExpenseUpdate, projectId: string)
    requires UniqueExpenseIds(expenses)
    requires var i := Find(expenses, ExpenseIdOf, id);
             i < |expenses| ==>
               expenses[i].projectId != projectId && MergeExpense(expenses[i], u).projectId != projectId
    ensures SpentOn(UpdateExpenses(expenses, id, u), projectId) == SpentOn(expenses, projectId)
  {
    var updated := UpdateExpenses(expenses, id, u);
    var mine := KeyIs(ProjectIdOf, projectId);
    var i := Find(expenses, ExpenseIdOf, id);
    forall k | 0 <= k < |updated|
      ensures mine(updated[k]) == mine(expenses[k]) && (mine(updated[k]) ==> updated[k] == expenses[k])
    {
      assert mine(updated[k]) == (ProjectIdOf(updated[k]) == projectId);
      assert mine(expenses[k]) == (ProjectIdOf(expenses[k]) == projectId);
      if expenses[k].id == id {
        assert k == i;
      }
    }
    FilterPointwise(updated, expenses, mine);
  }

  /**
   * The corrected `updateExpense` keeps a consistent store consistent,
   * including when the expense moves to another project.
   */
  lemma UpdateExpenseKeepsConsistent(projects: seq<Project>, expenses: seq<Expense>, id: string, u: ExpenseUpdate)
    requires Consistent(projects, expenses) && UniqueExpenseIds(expenses)
    ensures var (ps, es) := AfterUpdateExpense(projects, expenses, id, u);
            Consistent(ps, es) && UniqueExpenseIds(es)
  {
    var updated := UpdateExpenses(expenses, id, u);
    var i := Find(expenses, ExpenseIdOf, id);
    if i < |expenses| {
      var before := expenses[i].projectId;
      var after := MergeExpense(expenses[i], u).projectId;
      forall k | 0 <= k < |projects| && projects[k].id != before && projects[k].id != after
        ensures projects[k].spent == SpentOn(updated, projects[k].id)
      {
        UpdateExpensesOther(expenses, id, u, projects[k].id);
      }
      var mid := Resum(projects, updated, before);
      assert forall k :: 0 <= k < |mid| && mid[k].id != after ==> mid[k].spent == SpentOn(updated, mid[k].id);
      ResumConsistent(mid, updated, after);
    } else {
      forall k | 0 <= k < |projects| ensures projects[k].spent == SpentOn(updated, projects[k].id) {
        UpdateExpensesOther(expenses, id, u, projects[k].id);
      }
    }
  }

  /**
   * `deleteExpense`: the expenses with the id go, and the project of the
   * first of them, if any, is re-summed.
   */
  function AfterDeleteExpense(projects: seq<Project>, expenses: seq<Expense>, id: string)
    : (r: (seq<Project>, seq<Expense>))
  {
    var remaining := Filter(expenses, Not(KeyIs(ExpenseIdOf, id)));
    var i := Find(expenses, ExpenseIdOf, id);
    if i < |expenses| then (Resum(projects, remaining, expenses[i].projectId), remaining)
    else (projects, remaining)
  }

  /**
   * `deleteExpense` removes exactly the expenses with the id; an unknown id
   * changes nothing at all; with unique expense ids the store stays
   * consistent.
   */
  lemma DeleteExpenseSpec(projects: seq<Project>, expenses: seq<Expense>, id: string)
    ensures forall e | e in AfterDeleteExpense(projects, expenses, id).1 :: e in expenses && e.id != id
    ensures forall e | e in expenses && e.id != id :: e in AfterDeleteExpense(projects, expenses, id).1
    ensures (forall e | e in expenses :: e.id != id) ==>
              AfterDeleteExpense(projects, expenses, id) == (projects, expenses)
  {
    var keep := Not(KeyIs(ExpenseIdOf, id));
    var remaining := Filter(expenses, keep);
    assert AfterDeleteExpense(projects, expenses, id).1 == remaining;
    FilterMembers(expenses, keep);
    assert forall e :: keep(e) == (e.id != id);
    if forall e | e in expenses :: e.id != id {
      FilterAll(expenses, keep);
      assert Find(expenses, ExpenseIdOf, id) == |expenses|;
    }
  }

  /** Deleting an expense keeps every project's cached total equal to the sum of its expenses. */
  lemma DeleteExpenseKeepsConsistent(projects: seq<Project>, expenses: seq<Expense>, id: string)
    requires Consistent(projects, expenses) && UniqueExpenseIds(expenses)
    ensures var (ps, es) := AfterDeleteExpense(projects, expenses, id);
            Consistent(ps, es)
  {
    var keep := Not(KeyIs(ExpenseIdOf, id));
    var remaining := Filter(expenses, keep);
    var i := Find(expenses, ExpenseIdOf, id);
    if i < |expenses| {
      var gone := expenses[i].projectId;
      forall k | 0 <= k < |projects| && projects[k].id != gone
        ensures projects[k].spent == SpentOn(remaining, projects[k].id)
      {
        var mine := KeyIs(ProjectIdOf, projects[k].id);
        forall e | e in expenses ensures mine(e) ==> keep(e) {
          assert mine(e) == (ProjectIdOf(e) == projects[k].id);
          assert keep(e) == (ExpenseIdOf(e) != id);
        }
        FilterSubsumed(expenses, keep, mine);
      }
      ResumConsistent(projects, remaining, gone);
    } else {
      FilterAll(expenses, keep);
    }
  }

  // --------------------------------------------------------------- queries

  datatype ProjectStats = ProjectStats(
    project: Project,
    totalSpent: real,
    remaining: real,
    percentUsed: real,
    expenseCount: nat)

  /** The budget `getProjectStats` divides by, that of the first project with the id, is positive. */
  predicate FoundBudgetPositive(projects: seq<Project>, projectId: string)
  {
    var i := Find(projects, IdOf, projectId);
    i < |projects| ==> projects[i].budget > 0.0
  }

  /**
   * `getProjectStats(projectId)`: nothing for an unknown project; otherwise
   * the sum and number of its expenses, what remains of its budget, and the
   * percentage used, which is NOT capped at 100.
   */
  function ProjectStatsOf(projects: seq<Project>, expenses: seq<Expense>, projectId: string)
    : (r: Option<ProjectStats>)
    requires FoundBudgetPositive(projects, projectId)
    ensures r.None? <==> forall p | p in projects :: p.id != projectId
    ensures forall i | 0 <= i < |projects| && projects[i].id == projectId && (forall j | 0 <= j < i :: projects[j].id != projectId) ::
              r.Some? && r.value.project == projects[i]
    ensures r.Some? ==>
              && r.value.project in projects && r.value.project.id == projectId
              && r.value.totalSpent == SpentOn(expenses, projectId)
              && r.value.expenseCount == |ExpensesOf(expenses, projectId)|
              && r.value.remaining == r.value.project.budget - r.value.totalSpent
              && r.value.percentUsed * r.value.project.budget == r.value.totalSpent * 100.0
  {
    var i := Find(projects, IdOf, projectId);
    if i == |projects| then None
    else
      var project := projects[i];
      assert project in projects;
      var mine := ExpensesOf(expenses, projectId);
      var totalSpent := SumAmounts(mine);
      Some(ProjectStats(project, totalSpent, project.budget - totalSpent,
                        totalSpent / project.budget * 100.0, |mine|))
  }

  /**
   * The stats agree with `calculateProjectBudget` on the spend and the
   * remainder, its percentage is theirs capped at 100, and in a consistent
   * store the total is the project's cached `spent`.
   */
  lemma ProjectStatsAgree(projects: seq<Project>, expenses: seq<Expense>, projectId: string)
    requires FoundBudgetPositive(projects, projectId)
    requires ProjectStatsOf(projects, expenses, projectId).Some?
    ensures var s := ProjectStatsOf(projects, expenses, projectId).value;
            var b := CalculateProjectBudget(s.project, expenses);
            && b.spent == s.totalSpent && b.remaining == s.remaining
            && b.percentUsed == (if s.percentUsed < 100.0 then s.percentUsed else 100.0)
            && (s.totalSpent > s.project.budget ==> s.percentUsed > 100.0)
    ensures Consistent(projects, expenses) ==>
              var s := ProjectStatsOf(projects, expenses, projectId).value;
              s.totalSpent == s.project.spent
  {
    var i := Find(projects, IdOf, projectId);
    var s := ProjectStatsOf(projects, expenses, projectId).value;
    assert s.project == projects[i];
    var p := s.project.budget;
    assert p > 0.0;
    if s.totalSpent > p {
      assert s.totalSpent * 100.0 > p * 100.0;
    }
  }

  // ------------------------------------------------------------------ store

  class Store {
    var projects: seq<Project>
    var expenses: seq<Expense>

    /** `loadData`: the store starts from the stored lists. */
    constructor(storedProjects: seq<Project>, storedExpenses: seq<Expense>)
      ensures projects == storedProjects && expenses == storedExpenses
    {
      projects := storedProjects;
      expenses := storedExpenses;
    }

    method AddProject(data: ProjectData, generatedId: string) returns (p: Project)
      modifies this
      ensures p == CreateProject(data, generatedId)
      ensures projects == old(projects) + [p] && expenses == old(expenses)
    {
      p := CreateProject(data, generatedId);
      projects := projects + [p];
    }

    method UpdateProject(id: string, u: ProjectUpdate)
      modifies this
      ensures projects == UpdateProjects(old(projects), id, u) && expenses == old(expenses)
    {
      projects := UpdateProjects(projects, id, u);
    }

    method DeleteProject(id: string)
      modifies this
      ensures (projects, expenses) == AfterDeleteProject(old(projects), old(expenses), id)
    {
      projects := Filter(projects, Not(KeyIs(IdOf, id)));
      expenses := Filter(expenses, Not(KeyIs(ProjectIdOf, id)));
    }

    method AddExpense(data: ExpenseData, generatedId: string) returns (e: Expense)
      modifies this
      ensures e == CreateExpense(data, generatedId)
      ensures (projects, expenses) == AfterAddExpense(old(projects), old(expenses), e)
    {
      e := CreateExpense(data, generatedId);
      expenses := expenses + [e];
      if Find(projects, IdOf, e.projectId) < |projects| {
        UpdateProject(e.projectId, SpentOnly(SpentOn(expenses, e.projectId)));
      }
    }

    /** `updateExpense`, corrected to re-sum the expense's new project as well. */
    method UpdateExpense(id: string, u: ExpenseUpdate)
      modifies this
      ensures (projects, expenses) == AfterUpdateExpense(old(projects), old(expenses), id, u)
    {
      var i := Find(expenses, ExpenseIdOf, id);
      var previous := expenses;
      expenses := UpdateExpenses(expenses, id, u);
      if i < |previous| {
        UpdateProject(previous[i].projectId, SpentOnly(SpentOn(expenses, previous[i].projectId)));
        var moved := MergeExpense(previous[i], u).projectId;
        UpdateProject(moved, SpentOnly(SpentOn(expenses, moved)));
      }
    }

    method DeleteExpense(id: string)
      modifies this
      ensures (projects, expenses) == AfterDeleteExpense(old(projects), old(expenses), id)
    {
      var i := Find(expenses, ExpenseIdOf, id);
      var previous := expenses;
      expenses := Filter(expenses, Not(KeyIs(ExpenseIdOf, id)));
      if i < |previous| {
        UpdateProject(previous[i].projectId, SpentOnly(SpentOn(expenses, previous[i].projectId)));
      }
    }

    /** `getProjectById`: the first project with the id. */
    function GetProjectById(id: string): (r: Option<Project>)
      reads this
      ensures r.None? <==> forall p | p in projects :: p.id != id
      ensures r.Some? ==> r.value in projects && r.value.id == id
      ensures forall i | 0 <= i < |projects| && projects[i].id == id && (forall j | 0 <= j < i :: projects[j].id != id) ::
                r == Some(projects[i])
    {
      var i := Find(projects, IdOf, id);
      if i < |projects| then Some(projects[i]) else None
    }

    /** `getProjectExpenses`: the project's expenses, in store order. */
    function GetProjectExpenses(projectId: string): (r: seq<Expense>)
      reads this
      ensures forall e | e in r :: e in expenses && e.projectId == projectId
      ensures forall e | e in expenses && e.projectId == projectId :: e in r
    {
      FilterMembers(expenses, KeyIs(ProjectIdOf, projectId));
      ExpensesOf(expenses, projectId)
    }

    function GetProjectStats(projectId: string): Option<ProjectStats>
      reads this
      requires FoundBudgetPositive(projects, projectId)
    {
      ProjectStatsOf(projects, expenses, projectId)
    }
  }
}
