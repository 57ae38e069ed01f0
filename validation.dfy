/**
 * Write-time validation of new tasks, solutions and answers: the checks the
 * serializers run before anything is stored, as pure functions of the stored
 * tables, the acting user and the request. `None` means accepted.
 */
module Validation {
  import opened Basics
  import opened Models

  /** Why a write is refused. */
  datatype Error =
    | NotFound               // a referenced task, solution or sheet does not exist
    | EmptySheetList         // a task must name at least one exam sheet
    | MissingSolution        // an answer without a solution cannot be validated
    | WrongSolution          // the solution belongs to another task
    | AlreadyAnswered        // the user has already answered this solution
    | NotYourTask            // a solution for somebody else's task
    | TooManySolutions       // a second solution for a non-multi-choice task
    | NotYourTemplate        // the first target sheet belongs to somebody else
    | NotATemplate           // the first target sheet is a personal exam
    | NoTemplateForTask      // no template contains the answered task
    | SeveralPersonalSheets  // the user owns more than one personal exam

  /** The attributes a client sends; a missing field takes the model's default. */
  datatype SheetRequest = SheetRequest(name: string, template: Option<bool>)
  datatype TaskRequest = TaskRequest(sheets: seq<SheetId>, question: string, kind: Option<TaskType>)
  datatype SolutionRequest = SolutionRequest(task: TaskId, choice: Option<bool>, text: Option<string>, points: Option<int>)
  datatype AnswerRequest = AnswerRequest(task: TaskId, solution: Option<SolutionId>, choice: Option<bool>, text: Option<string>, submit: Option<bool>)

  // ---------------------------------------------------------------------------
  // The rows a request creates; the creator is always the acting user
  // ---------------------------------------------------------------------------

  function NewSheet(user: UserId, req: SheetRequest): ExamSheet
  {
    ExamSheet(user, None, req.name, req.template.GetOr(DefaultTemplate), {})
  }

  function NewTask(user: UserId, req: TaskRequest): Task
  {
    Task(user, req.kind.GetOr(DefaultTaskType), req.question, None)
  }

  function NewSolution(user: UserId, req: SolutionRequest): Solution
  {
    Solution(user, req.task, req.choice.GetOr(DefaultChoice), req.text, req.points.GetOr(DefaultPoints))
  }

  function NewAnswer(user: UserId, req: AnswerRequest): Answer
  {
    Answer(user, req.task, req.solution, req.choice.GetOr(DefaultChoice), req.text, req.submit.GetOr(DefaultSubmit))
  }

  // ---------------------------------------------------------------------------
  // Tasks
  // ---------------------------------------------------------------------------

  /**
   * A task may be added only to a template of the caller's. Only the first
   * sheet the request names is checked; the task is then attached to all of
   * them.
   */
  function ValidateTask(sheets: seq<ExamSheet>, user: UserId, req: TaskRequest): (r: Option<Error>)
    ensures r.None? <==>
      && |req.sheets| > 0
      && (forall i :: 0 <= i < |req.sheets| ==> req.sheets[i] < |sheets|)
      && sheets[req.sheets[0]].creator == user
      && sheets[req.sheets[0]].template
    ensures |req.sheets| > 0 && req.sheets[0] < |sheets| && sheets[req.sheets[0]].creator != user ==>
      r.Some? && r.value in {NotFound, NotYourTemplate}
    ensures |req.sheets| > 0 && req.sheets[0] < |sheets| && !sheets[req.sheets[0]].template ==>
      r.Some? && r.value in {NotFound, NotYourTemplate, NotATemplate}
  {
    if |req.sheets| == 0 then Some(EmptySheetList)
    else if exists i :: 0 <= i < |req.sheets| && req.sheets[i] >= |sheets| then Some(NotFound)
    else if sheets[req.sheets[0]].creator != user then Some(NotYourTemplate)
    else if !sheets[req.sheets[0]].template then Some(NotATemplate)
    else None
  }

  /**
   * Only the first target is checked: a task aimed first at the caller's own
   * template and then at somebody else's personal exam is accepted.
   */
  lemma OnlyFirstTargetChecked(u: UserId, v: UserId)
    requires u != v
    ensures var sheets := [ExamSheet(u, None, "mine", true, {}), ExamSheet(v, None, "theirs", false, {})];
            ValidateTask(sheets, u, TaskRequest([0, 1], "q", None)).None?
  {
  }

  // ---------------------------------------------------------------------------
  // Solutions
  // ---------------------------------------------------------------------------

  /** Does task `t` already have a solution? */
  predicate HasSolution(solutions: seq<Solution>, t: TaskId)
  {
    exists i :: 0 <= i < |solutions| && solutions[i].task == t
  }

  /**
   * A solution may be written only for one of the caller's own tasks, and a
   * task that is not multi-choice takes at most one solution.
   */
  function ValidateSolution(tasks: seq<Task>, solutions: seq<Solution>, user: UserId, req: SolutionRequest): (r: Option<Error>)
    ensures r.None? <==>
      && req.task < |tasks|
      && tasks[req.task].creator == user
      && (tasks[req.task].kind == MultiChoice || !HasSolution(solutions, req.task))
    ensures req.task < |tasks| && tasks[req.task].creator != user ==> r.Some?
    ensures req.task < |tasks| && tasks[req.task].kind != MultiChoice && HasSolution(solutions, req.task) ==>
      r == Some(TooManySolutions)
  {
    if req.task >= |tasks| then Some(NotFound)
    else if tasks[req.task].kind != MultiChoice && HasSolution(solutions, req.task) then Some(TooManySolutions)
    else if tasks[req.task].creator != user then Some(NotYourTask)
    else None
  }

  /** Every solution refers to an existing task and is written by that task's author. */
  predicate SolutionsOwned(tasks: seq<Task>, solutions: seq<Solution>)
  {
    forall i :: 0 <= i < |solutions| ==>
      solutions[i].task < |tasks| && solutions[i].creator == tasks[solutions[i].task].creator
  }

  /** Two solutions of the same task only ever belong to a multi-choice task. */
  predicate SolutionCardinality(tasks: seq<Task>, solutions: seq<Solution>)
  {
    forall i, j :: 0 <= i < j < |solutions| && solutions[i].task == solutions[j].task && solutions[i].task < |tasks| ==>
      tasks[solutions[i].task].kind == MultiChoice
  }

  /** Storing an accepted solution keeps both solution invariants. */
  lemma AcceptedSolutionKeepsInvariants(tasks: seq<Task>, solutions: seq<Solution>, user: UserId, req: SolutionRequest)
    requires SolutionsOwned(tasks, solutions) && SolutionCardinality(tasks, solutions)
    requires ValidateSolution(tasks, solutions, user, req).None?
    ensures SolutionsOwned(tasks, solutions + [NewSolution(user, req)])
    ensures SolutionCardinality(tasks, solutions + [NewSolution(user, req)])
  {
    var all := solutions + [NewSolution(user, req)];
    forall i, j | 0 <= i < j < |all| && all[i].task == all[j].task && all[i].task < |tasks|
      ensures tasks[all[i].task].kind == MultiChoice
    {
      if j == |solutions| {
        assert all[i] == solutions[i];
        if tasks[req.task].kind != MultiChoice {
          assert HasSolution(solutions, req.task);
        }
      } else {
        assert all[i] == solutions[i] && all[j] == solutions[j];
      }
    }
  }

  /** A multi-choice task of the caller's accepts any number of solutions. */
  lemma MultiChoiceTakesMany(tasks: seq<Task>, solutions: seq<Solution>, user: UserId, req: SolutionRequest)
    requires req.task < |tasks| && tasks[req.task].kind == MultiChoice && tasks[req.task].creator == user
    ensures ValidateSolution(tasks, solutions, user, req).None?
    ensures ValidateSolution(tasks, solutions + [NewSolution(user, req)], user, req).None?
  {
  }

  /** A second solution to a true/false task is refused. */
  lemma SecondTrueFalseSolutionRefused(tasks: seq<Task>, solutions: seq<Solution>, user: UserId, req: SolutionRequest)
    requires req.task < |tasks| && tasks[req.task].kind == TrueFalse
    requires ValidateSolution(tasks, solutions, user, req).None?
    ensures ValidateSolution(tasks, solutions + [NewSolution(user, req)], user, req) == Some(TooManySolutions)
  {
    var all := solutions + [NewSolution(user, req)];
    assert all[|solutions|].task == req.task;
  }

  // ---------------------------------------------------------------------------
  // Answers
  // ---------------------------------------------------------------------------

  /**
   * An answer must name an existing solution of the answered task, and the
   * caller must not have answered that solution before.
   */
  function ValidateAnswer(tasks: seq<Task>, solutions: seq<Solution>, answers: seq<Answer>, user: UserId, req: AnswerRequest): (r: Option<Error>)
    ensures r.None? <==>
      && req.task < |tasks|
      && req.solution.Some?
      && req.solution.value < |solutions|
      && !AnsweredBy(answers, user, req.solution.value)
      && solutions[req.solution.value].task == req.task
    ensures req.task < |tasks| && req.solution.Some? && req.solution.value < |solutions| ==>
      && (AnsweredBy(answers, user, req.solution.value) ==> r == Some(AlreadyAnswered))
      && (!AnsweredBy(answers, user, req.solution.value) && solutions[req.solution.value].task != req.task ==> r == Some(WrongSolution))
  {
    if req.task >= |tasks| then Some(NotFound)
    else if req.solution.None? then Some(MissingSolution)
    else if req.solution.value >= |solutions| then Some(NotFound)
    else if AnsweredBy(answers, user, req.solution.value) then Some(AlreadyAnswered)
    else if solutions[req.solution.value].task != req.task then Some(WrongSolution)
    else None
  }

  /** Every answer names an existing solution of its own task. */
  predicate AnswersMatchSolutions(solutions: seq<Solution>, answers: seq<Answer>)
  {
    forall i :: 0 <= i < |answers| ==>
      answers[i].solution.Some? && answers[i].solution.value < |solutions| &&
      answers[i].task == solutions[answers[i].solution.value].task
  }

  /**
   * Storing an accepted answer keeps the (creator, solution) constraint and
   * the answer/solution agreement; a second answer by the same user to the
   * same solution is always refused.
   */
  lemma AcceptedAnswerKeepsInvariants(tasks: seq<Task>, solutions: seq<Solution>, answers: seq<Answer>, user: UserId, req: AnswerRequest)
    requires UniqueTogether(answers) && AnswersMatchSolutions(solutions, answers)
    requires ValidateAnswer(tasks, solutions, answers, user, req).None?
    ensures UniqueTogether(answers + [NewAnswer(user, req)])
    ensures AnswersMatchSolutions(solutions, answers + [NewAnswer(user, req)])
    ensures ValidateAnswer(tasks, solutions, answers + [NewAnswer(user, req)], user, req) == Some(AlreadyAnswered)
  {
    var a := NewAnswer(user, req);
    UniqueTogetherInsert(answers, a);
    var all := answers + [a];
    assert all[|answers|] == a;
    assert AnsweredBy(all, user, req.solution.value);
  }
}
