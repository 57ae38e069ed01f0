/**
 * The entity store and the write operations on it: creating exam sheets,
 * tasks, solutions and answers on behalf of the acting user. A refused
 * write changes nothing; an accepted answer also instantiates the user's
 * personal exam.
 */
module Serializers {
  import opened Basics
  import opened Models
  import opened Validation
  import opened Instantiation

  // ---------------------------------------------------------------------------
  // Consistency of the tables
  // ---------------------------------------------------------------------------

  /** Every task a sheet lists exists. */
  predicate SheetsRefTasks(sheets: seq<ExamSheet>, taskCount: nat)
  {
    forall k, t :: 0 <= k < |sheets| && t in sheets[k].tasks ==> t < taskCount
  }

  /** Is task `t` on one of user `u`'s personal sheets? */
  predicate OnPersonalSheet(sheets: seq<ExamSheet>, u: UserId, t: TaskId)
  {
    exists k :: 0 <= k < |sheets| && IsPersonalOf(sheets[k], u) && t in sheets[k].tasks
  }

  /** Every answered task is reachable from its author's personal exam. */
  predicate AnswersReachable(sheets: seq<ExamSheet>, answers: seq<Answer>)
  {
    forall i :: 0 <= i < |answers| ==> OnPersonalSheet(sheets, answers[i].creator, answers[i].task)
  }

  /** Is task `t` on a template written by `author`? */
  predicate OnTemplateOf(sheets: seq<ExamSheet>, author: UserId, t: TaskId)
  {
    exists k :: 0 <= k < |sheets| && IsTemplateWith(sheets[k], t) && sheets[k].creator == author
  }

  /** Every task sits on a template written by the task's own author. */
  predicate TasksOnTemplates(sheets: seq<ExamSheet>, tasks: seq<Task>)
  {
    forall t :: 0 <= t < |tasks| ==> OnTemplateOf(sheets, tasks[t].creator, t)
  }

  predicate Consistent(sheets: seq<ExamSheet>, tasks: seq<Task>, solutions: seq<Solution>, answers: seq<Answer>)
  {
    && SheetsRefTasks(sheets, |tasks|)
    && TasksOnTemplates(sheets, tasks)
    && SolutionsOwned(tasks, solutions)
    && SolutionCardinality(tasks, solutions)
    && AnswersMatchSolutions(solutions, answers)
    && UniqueTogether(answers)
    && AnswersReachable(sheets, answers)
  }

  /** The keys a task request names. */
  function Targets(req: TaskRequest): set<SheetId>
  {
    set i | 0 <= i < |req.sheets| :: req.sheets[i]
  }

  /** Creating a sheet keeps the tables consistent. */
  lemma NewSheetKeepsConsistency(sheets: seq<ExamSheet>, tasks: seq<Task>, solutions: seq<Solution>, answers: seq<Answer>, user: UserId, req: SheetRequest)
    requires Consistent(sheets, tasks, solutions, answers)
    ensures Consistent(sheets + [NewSheet(user, req)], tasks, solutions, answers)
  {
    var all := sheets + [NewSheet(user, req)];
    forall i | 0 <= i < |answers| ensures OnPersonalSheet(all, answers[i].creator, answers[i].task) {
      var k :| 0 <= k < |sheets| && IsPersonalOf(sheets[k], answers[i].creator) && answers[i].task in sheets[k].tasks;
      assert all[k] == sheets[k];
    }
    forall t | 0 <= t < |tasks|
      ensures OnTemplateOf(all, tasks[t].creator, t)
    {
      var k :| 0 <= k < |sheets| && IsTemplateWith(sheets[k], t) && sheets[k].creator == tasks[t].creator;
      assert all[k] == sheets[k];
    }
  }

  /** Storing an accepted task and linking it to its sheets keeps the tables consistent. */
  lemma AcceptedTaskKeepsConsistency(sheets: seq<ExamSheet>, tasks: seq<Task>, solutions: seq<Solution>, answers: seq<Answer>, user: UserId, req: TaskRequest)
    requires Consistent(sheets, tasks, solutions, answers)
    requires ValidateTask(sheets, user, req).None?
    ensures Consistent(AddTaskTo(sheets, Targets(req), |tasks|), tasks + [NewTask(user, req)], solutions, answers)
  {
    var tasks' := tasks + [NewTask(user, req)];
    var sheets' := AddTaskTo(sheets, Targets(req), |tasks|);
    forall i | 0 <= i < |solutions| ensures solutions[i].creator == tasks'[solutions[i].task].creator {
      assert tasks'[solutions[i].task] == tasks[solutions[i].task];
    }
    forall i, j | 0 <= i < j < |solutions| && solutions[i].task == solutions[j].task && solutions[i].task < |tasks'|
      ensures tasks'[solutions[i].task].kind == MultiChoice
    {
      assert tasks'[solutions[i].task] == tasks[solutions[i].task];
    }
    forall i | 0 <= i < |answers| ensures OnPersonalSheet(sheets', answers[i].creator, answers[i].task) {
      var k :| 0 <= k < |sheets| && IsPersonalOf(sheets[k], answers[i].creator) && answers[i].task in sheets[k].tasks;
      assert sheets[k].tasks <= sheets'[k].tasks;
    }
    forall t | 0 <= t < |tasks'|
      ensures OnTemplateOf(sheets', tasks'[t].creator, t)
    {
      if t < |tasks| {
        var k :| 0 <= k < |sheets| && IsTemplateWith(sheets[k], t) && sheets[k].creator == tasks[t].creator;
        assert IsTemplateWith(sheets'[k], t) && sheets'[k].creator == tasks'[t].creator;
      } else {
        // The one target the validation checked is a template of the author's.
        var k := req.sheets[0];
        assert k in Targets(req);
        assert IsTemplateWith(sheets'[k], t) && sheets'[k].creator == tasks'[t].creator;
      }
    }
  }

  /** Storing an accepted solution keeps the tables consistent. */
  lemma AcceptedSolutionKeepsConsistency(sheets: seq<ExamSheet>, tasks: seq<Task>, solutions: seq<Solution>, answers: seq<Answer>, user: UserId, req: SolutionRequest)
    requires Consistent(sheets, tasks, solutions, answers)
    requires ValidateSolution(tasks, solutions, user, req).None?
    ensures Consistent(sheets, tasks, solutions + [NewSolution(user, req)], answers)
  {
    AcceptedSolutionKeepsInvariants(tasks, solutions, user, req);
    var solutions' := solutions + [NewSolution(user, req)];
    forall i | 0 <= i < |answers|
      ensures answers[i].solution.value < |solutions'| && answers[i].task == solutions'[answers[i].solution.value].task
    {
      assert solutions'[answers[i].solution.value] == solutions[answers[i].solution.value];
    }
  }

  /**
   * Storing an accepted answer and instantiating the author's exam keeps the
   * tables consistent; in particular the answered task is then on the
   * author's personal sheet, and no earlier answer loses its place.
   */
  lemma AcceptedAnswerKeepsConsistency(sheets: seq<ExamSheet>, tasks: seq<Task>, solutions: seq<Solution>, answers: seq<Answer>, user: UserId, req: AnswerRequest)
    requires Consistent(sheets, tasks, solutions, answers)
    requires ValidateAnswer(tasks, solutions, answers, user, req).None?
    requires Instantiate(sheets, user, req.task).Ok?
    ensures Consistent(Instantiate(sheets, user, req.task).value, tasks, solutions, answers + [NewAnswer(user, req)])
  {
    var sheets' := Instantiate(sheets, user, req.task).value;
    var answers' := answers + [NewAnswer(user, req)];
    AcceptedAnswerKeepsInvariants(tasks, solutions, answers, user, req);
    InstantiateOnlyGrows(sheets, user, req.task);
    OnePersonalSheetAfter(sheets, user, req.task);
    forall k, t | 0 <= k < |sheets'| && t in sheets'[k].tasks ensures t < |tasks| {
      if k < |sheets| {
        assert t in sheets[k].tasks || t == req.task;
      }
    }
    forall i | 0 <= i < |answers'| ensures OnPersonalSheet(sheets', answers'[i].creator, answers'[i].task) {
      if i < |answers| {
        assert answers'[i] == answers[i];
        var k :| 0 <= k < |sheets| && IsPersonalOf(sheets[k], answers[i].creator) && answers[i].task in sheets[k].tasks;
        assert IsPersonalOf(sheets'[k], answers[i].creator) && answers[i].task in sheets'[k].tasks;
      } else {
        var p :| PersonalSheets(sheets', user) == {p} && p < |sheets'| && req.task in sheets'[p].tasks;
        assert p in PersonalSheets(sheets', user);
      }
    }
    forall t | 0 <= t < |tasks|
      ensures OnTemplateOf(sheets', tasks[t].creator, t)
    {
      var k :| 0 <= k < |sheets| && IsTemplateWith(sheets[k], t) && sheets[k].creator == tasks[t].creator;
      assert sheets'[k] == sheets[k];
    }
  }

  /**
   * In a consistent store every stored task lies on some template, so an
   * answer to a stored task never meets the "no template" failure of the
   * fork: the only way instantiation can still fail is a user with several
   * personal sheets.
   */
  lemma StoredTaskHasTemplate(sheets: seq<ExamSheet>, tasks: seq<Task>, solutions: seq<Solution>, answers: seq<Answer>, user: UserId, t: TaskId)
    requires Consistent(sheets, tasks, solutions, answers)
    requires t < |tasks|
    ensures FirstTemplateWith(sheets, t).Some?
    ensures Instantiate(sheets, user, t).Err? <==> |PersonalSheets(sheets, user)| > 1
  {
    var author := tasks[t].creator;
    var k :| 0 <= k < |sheets| && IsTemplateWith(sheets[k], t) && sheets[k].creator == author;
    assert !(forall j :: 0 <= j < |sheets| ==> !IsTemplateWith(sheets[j], t));
  }

  /** In a consistent store every user's final grade on every sheet is defined. */
  lemma FinalGradeDefined(sheets: seq<ExamSheet>, tasks: seq<Task>, solutions: seq<Solution>, answers: seq<Answer>, sheet: SheetId, u: UserId)
    requires Consistent(sheets, tasks, solutions, answers)
    requires sheet < |sheets|
    ensures RefsOk(answers, solutions)
    ensures UserFinalGrade(sheets[sheet], u, answers, solutions).Some?
  {
    forall a | a in answers ensures a.solution.Some? && a.solution.value < |solutions| {
      var i :| 0 <= i < |answers| && answers[i] == a;
    }
  }

  // ---------------------------------------------------------------------------
  // The store
  // ---------------------------------------------------------------------------

  class Store {
    var sheets: seq<ExamSheet>
    var tasks: seq<Task>
    var solutions: seq<Solution>
    var answers: seq<Answer>

    ghost predicate Valid()
      reads this
    {
      Consistent(sheets, tasks, solutions, answers)
    }

    constructor ()
      ensures Valid()
      ensures sheets == [] && tasks == [] && solutions == [] && answers == []
    {
      sheets, tasks, solutions, answers := [], [], [], [];
    }

    /** The final grade of `u` on the stored sheet `sheet`. */
    function FinalGrade(sheet: SheetId, u: UserId): (g: int)
      reads this
      requires Valid() && sheet < |sheets|
      ensures RefsOk(answers, solutions) && UserFinalGrade(sheets[sheet], u, answers, solutions) == Some(g)
    {
      FinalGradeDefined(sheets, tasks, solutions, answers, sheet, u);
      UserFinalGrade(sheets[sheet], u, answers, solutions).value
    }

    /** A new exam sheet, template or not, owned by `user`, with no tasks. */
    method CreateSheet(user: UserId, req: SheetRequest) returns (id: SheetId)
      requires Valid()
      modifies this
      ensures Valid()
      ensures id == |old(sheets)| && sheets == old(sheets) + [NewSheet(user, req)]
      ensures tasks == old(tasks) && solutions == old(solutions) && answers == old(answers)
    {
      NewSheetKeepsConsistency(sheets, tasks, solutions, answers, user, req);
      id := |sheets|;
      sheets := sheets + [NewSheet(user, req)];
    }

    /** A new task owned by `user`, linked to every sheet the request names. */
    method CreateTask(user: UserId, req: TaskRequest) returns (r: Result<TaskId, Error>)
      requires Valid()
      modifies this
      ensures Valid()
      ensures solutions == old(solutions) && answers == old(answers)
      ensures var v := ValidateTask(old(sheets), user, req);
              && (v.Some? ==> r == Err(v.value) && sheets == old(sheets) && tasks == old(tasks))
              && (v.None? ==> r == Ok(|old(tasks)|)
                              && tasks == old(tasks) + [NewTask(user, req)]
                              && sheets == AddTaskTo(old(sheets), Targets(req), |old(tasks)|))
    {
      var v := ValidateTask(sheets, user, req);
      if v.Some? {
        return Err(v.value);
      }
      AcceptedTaskKeepsConsistency(sheets, tasks, solutions, answers, user, req);
      var id := |tasks|;
      tasks := tasks + [NewTask(user, req)];
      sheets := AddTaskTo(sheets, Targets(req), id);
      r := Ok(id);
    }

    /** A new solution owned by `user`. */
    method CreateSolution(user: UserId, req: SolutionRequest) returns (r: Result<SolutionId, Error>)
      requires Valid()
      modifies this
      ensures Valid()
      ensures sheets == old(sheets) && tasks == old(tasks) && answers == old(answers)
      ensures var v := ValidateSolution(old(tasks), old(solutions), user, req);
              && (v.Some? ==> r == Err(v.value) && solutions == old(solutions))
              && (v.None? ==> r == Ok(|old(solutions)|) && solutions == old(solutions) + [NewSolution(user, req)])
    {
      var v := ValidateSolution(tasks, solutions, user, req);
      if v.Some? {
        return Err(v.value);
      }
      AcceptedSolutionKeepsConsistency(sheets, tasks, solutions, answers, user, req);
      r := Ok(|solutions|);
      solutions := solutions + [NewSolution(user, req)];
    }

    /**
     * A new answer owned by `user`. After validation the answer is inserted,
     * then the user's personal exam is forked or grown; if that fails the
     * request is rolled back and nothing is stored.
     */
    method CreateAnswer(user: UserId, req: AnswerRequest) returns (r: Result<AnswerId, Error>)
      requires Valid()
      modifies this
      ensures Valid()
      ensures tasks == old(tasks) && solutions == old(solutions)
      ensures var v := ValidateAnswer(old(tasks), old(solutions), old(answers), user, req);
              var inst := Instantiate(old(sheets), user, req.task);
              && (r.Ok? <==> v.None? && inst.Ok?)
              && (v.Some? ==> r == Err(v.value))
              && (v.None? && inst.Err? ==> r == Err(inst.error))
              && (r.Err? ==> sheets == old(sheets) && answers == old(answers))
              && (r.Ok? ==> && v.None? && inst.Ok?
                             && r.value == |old(answers)|
                             && answers == old(answers) + [NewAnswer(user, req)]
                             && sheets == inst.value)
    {
      var v := ValidateAnswer(tasks, solutions, answers, user, req);
      if v.Some? {
        return Err(v.value);
      }
      var before := answers;
      answers := answers + [NewAnswer(user, req)];
      var failure: Option<Error>;
      if PersonalSheets(sheets, user) == {} {
        failure := CreateExamBasedOnTemplate(user, req.task);
      } else {
        failure := AddTaskToExistingExam(user, req.task);
      }
      if failure.Some? {
        answers := before;
        return Err(failure.value);
      }
      AcceptedAnswerKeepsConsistency(old(sheets), tasks, solutions, before, user, req);
      r := Ok(|before|);
    }

    /**
     * Forks the first template containing `t` into a personal exam of
     * `user`: the template's row is cloned (a fresh key, no task links),
     * marked as no template and saved, given task `t`, and handed to `user`.
     */
    method CreateExamBasedOnTemplate(user: UserId, t: TaskId) returns (failure: Option<Error>)
      modifies this
      ensures tasks == old(tasks) && solutions == old(solutions) && answers == old(answers)
      ensures failure.Some? <==> FirstTemplateWith(old(sheets), t).None?
      ensures failure.Some? ==> failure == Some(NoTemplateForTask) && sheets == old(sheets)
      ensures failure.None? ==>
                sheets == old(sheets) + [Fork(old(sheets)[FirstTemplateWith(old(sheets), t).value], user, t)]
      ensures PersonalSheets(old(sheets), user) == {} ==>
                (failure.None? ==> Instantiate(old(sheets), user, t) == Ok(sheets)) &&
                (failure.Some? ==> Instantiate(old(sheets), user, t) == Err(failure.value))
    {
      var found := FirstTemplateWith(sheets, t);
      if found.None? {
        return Some(NoTemplateForTask);
      }
      // A cleared key makes the save an insert of a copy; links are not copied.
      var copy := sheets[found.value].(template := false, tasks := {});
      sheets := sheets + [copy];
      var id := |sheets| - 1;
      sheets := sheets[id := sheets[id].(tasks := sheets[id].tasks + {t})];
      sheets := sheets[id := sheets[id].(creator := user)];
      assert sheets == old(sheets) + [Fork(old(sheets)[found.value], user, t)] by {
        assert sheets[..id] == old(sheets);
        assert sheets[id].tasks == {t};
        assert sheets[id] == Fork(old(sheets)[found.value], user, t);
      }
      failure := None;
    }

    /** Adds `t` to the one personal exam of `user`. */
    method AddTaskToExistingExam(user: UserId, t: TaskId) returns (failure: Option<Error>)
      modifies this
      ensures tasks == old(tasks) && solutions == old(solutions) && answers == old(answers)
      ensures PersonalSheets(old(sheets), user) == {} ==> failure == Some(NotFound) && sheets == old(sheets)
      ensures PersonalSheets(old(sheets), user) != {} ==>
                (failure.None? ==> Instantiate(old(sheets), user, t) == Ok(sheets)) &&
                (failure.Some? ==> Instantiate(old(sheets), user, t) == Err(failure.value) && sheets == old(sheets))
    {
      var mine := PersonalSheets(sheets, user);
      if mine == {} {
        return Some(NotFound);
      }
      if |mine| > 1 {
        return Some(SeveralPersonalSheets);
      }
      var p :| p in mine;
      Singleton(mine, p);
      ghost var grown := AddTaskTo(sheets, mine, t);
      sheets := sheets[p := sheets[p].(tasks := sheets[p].tasks + {t})];
      assert sheets == grown;
      failure := None;
    }
  }
}

/**
 * The grading walkthrough end to end: an author writes a true/false task on
 * a template with one solution worth 5 points; a second solution is refused;
 * a student's first answer forks a personal exam holding that task; a second
 * answer to the same solution is refused; the student's grade is 5.
 */
module Walkthrough {
  import opened Basics
  import opened Models
  import opened Validation
  import opened Instantiation
  import opened Serializers

  const Author: UserId := 1
  const Student: UserId := 2

  /** The author's template with one true/false task and its 5-point solution. */
  method AuthorTemplate() returns (store: Store)
    ensures fresh(store) && store.Valid()
    ensures store.sheets == [ExamSheet(Author, None, "template1", true, {0})]
    ensures store.tasks == [Task(Author, TrueFalse, "Is 2 + 2 = 4?", None)]
    ensures store.solutions == [Solution(Author, 0, true, None, 5)]
    ensures store.answers == []
  {
    store := new Store();
    var template := store.CreateSheet(Author, SheetRequest("template1", None));
    var taskReq := TaskRequest([template], "Is 2 + 2 = 4?", Some(TrueFalse));
    assert 0 in Targets(taskReq) by { assert taskReq.sheets[0] == 0; }
    assert Targets(taskReq) == {0};
    var task := store.CreateTask(Author, taskReq);
    assert task == Ok(0);
    assert |store.sheets| == 1 && store.sheets[0] == ExamSheet(Author, None, "template1", true, {} + {0});
    assert {} + {0} == {0};
    var solution := store.CreateSolution(Author, SolutionRequest(0, Some(true), None, Some(5)));
    assert solution == Ok(0);
  }

  method SecondSolutionRefused()
  {
    var store := AuthorTemplate();
    assert store.solutions[0].task == 0;
    var second := store.CreateSolution(Author, SolutionRequest(0, Some(false), None, Some(4)));
    assert second == Err(TooManySolutions);
    var foreign := store.CreateSolution(Student, SolutionRequest(0, Some(false), None, Some(4)));
    assert foreign.Err?;
  }

  method FirstAnswerForks()
  {
    var store := AuthorTemplate();
    assert PersonalSheets(store.sheets, Student) == {};
    assert IsTemplateWith(store.sheets[0], 0);
    assert FirstTemplateWith(store.sheets, 0) == Some(0);
    var answerReq := AnswerRequest(0, Some(0), Some(true), None, Some(true));
    assert ValidateAnswer(store.tasks, store.solutions, store.answers, Student, answerReq).None?;
    var answer := store.CreateAnswer(Student, answerReq);
    assert answer == Ok(0);
    assert |store.sheets| == 2 && store.sheets[1] == ExamSheet(Student, None, "template1", false, {0});

    assert store.answers[0].creator == Student && store.answers[0].solution == Some(0);
    var again := store.CreateAnswer(Student, AnswerRequest(0, Some(0), Some(false), None, Some(true)));
    assert again == Err(AlreadyAnswered);

    var a := NewAnswer(Student, answerReq);
    FinalGradeAddsOwn(store.sheets[1], Student, [], a, store.solutions);
    assert [] + [a] == [a];
    var grade := store.FinalGrade(1, Student);
    assert grade == 5;
  }
}
