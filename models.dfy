/**
 * The entities of the exam app and the two grading computations on them:
 * the grade of one answer and a user's final grade on one exam sheet.
 */
module Models {
  import opened Basics

  // ---------------------------------------------------------------------------
  // Entities
  // ---------------------------------------------------------------------------

  /** The three kinds of task; a task that names none is a TEXT task. */
  datatype TaskType = MultiChoice | Text | TrueFalse

  const DefaultTaskType: TaskType := Text
  /** A solution that names no points is worth one point. */
  const DefaultPoints: int := 1
  /** A new exam sheet is a template unless it says otherwise. */
  const DefaultTemplate: bool := true
  const DefaultChoice: bool := false
  const DefaultSubmit: bool := false

  /**
   * An exam sheet is either a reusable template or a user's personal exam.
   * The task <-> sheet many-to-many relation is kept here, on the sheet side.
   */
  datatype ExamSheet = ExamSheet(
    creator: UserId,
    editor: Option<UserId>,
    name: string,
    template: bool,
    tasks: set<TaskId>)

  datatype Task = Task(
    creator: UserId,
    kind: TaskType,
    question: string,
    maxGrade: Option<int>)

  /** A reference answer to a task, worth `points` when matched. */
  datatype Solution = Solution(
    creator: UserId,
    task: TaskId,
    choice: bool,
    text: Option<string>,
    points: int)

  /** A test-taker's submission; `solution` is a nullable foreign key. */
  datatype Answer = Answer(
    creator: UserId,
    task: TaskId,
    solution: Option<SolutionId>,
    choice: bool,
    text: Option<string>,
    submit: bool)

  // ---------------------------------------------------------------------------
  // The (creator, solution) uniqueness constraint on answers
  // ---------------------------------------------------------------------------

  /** Has user `u` already answered solution `s`? */
  predicate AnsweredBy(answers: seq<Answer>, u: UserId, s: SolutionId)
  {
    exists i :: 0 <= i < |answers| && answers[i].creator == u && answers[i].solution == Some(s)
  }

  /**
   * No two answers share a (creator, solution) pair. As in SQL, answers
   * without a solution never clash with each other.
   */
  predicate UniqueTogether(answers: seq<Answer>)
  {
    forall i, j :: 0 <= i < j < |answers| && answers[i].solution.Some? ==>
      answers[i].creator != answers[j].creator || answers[i].solution != answers[j].solution
  }

  /** Inserting an answer keeps the constraint exactly when its pair is new. */
  lemma UniqueTogetherInsert(answers: seq<Answer>, a: Answer)
    requires a.solution.Some?
    ensures UniqueTogether(answers + [a]) <==>
            UniqueTogether(answers) && !AnsweredBy(answers, a.creator, a.solution.value)
  {
    var all := answers + [a];
    if UniqueTogether(all) {
      forall i, j | 0 <= i < j < |answers| && answers[i].solution.Some?
        ensures answers[i].creator != answers[j].creator || answers[i].solution != answers[j].solution
      {
        assert all[i] == answers[i] && all[j] == answers[j];
      }
    }
    if AnsweredBy(answers, a.creator, a.solution.value) {
      var i :| 0 <= i < |answers| && answers[i].creator == a.creator && answers[i].solution == a.solution;
      assert all[i] == answers[i] && all[|answers|] == a;
    }
    if UniqueTogether(answers) && !AnsweredBy(answers, a.creator, a.solution.value) {
      forall i, j | 0 <= i < j < |all| && all[i].solution.Some?
        ensures all[i].creator != all[j].creator || all[i].solution != all[j].solution
      {
        if j == |answers| {
          assert all[i] == answers[i] && all[j] == a;
        } else {
          assert all[i] == answers[i] && all[j] == answers[j];
        }
      }
    }
  }

  // ---------------------------------------------------------------------------
  // Grade of one answer
  // ---------------------------------------------------------------------------

  /** The points an answer earns against the solution it names. */
  function Grade(a: Answer, s: Solution): int
  {
    if a.choice == s.choice && a.submit then s.points else 0
  }

  /** The answer's solution key, when present, refers to an existing solution. */
  predicate SolutionRefOk(a: Answer, solutions: seq<Solution>)
  {
    a.solution.Some? ==> a.solution.value < |solutions|
  }

  /**
   * The grade of an answer; None stands for the failure of dereferencing a
   * missing solution, which the grading code does unconditionally.
   */
  function CalculatedGrade(a: Answer, solutions: seq<Solution>): (g: Option<int>)
    requires SolutionRefOk(a, solutions)
    ensures g.None? <==> a.solution.None?
    ensures g.Some? ==> g.value == 0 || g.value == solutions[a.solution.value].points
  {
    match a.solution
    case None => None
    case Some(s) => Some(Grade(a, solutions[s]))
  }

  /** A submitted answer with the solution's choice earns the solution's points. */
  lemma GradeOnMatch(a: Answer, solutions: seq<Solution>)
    requires a.solution.Some? && a.solution.value < |solutions|
    requires a.choice == solutions[a.solution.value].choice && a.submit
    ensures CalculatedGrade(a, solutions) == Some(solutions[a.solution.value].points)
  {
  }

  /** A different choice or an unsubmitted answer earns nothing. */
  lemma GradeOnMismatch(a: Answer, solutions: seq<Solution>)
    requires a.solution.Some? && a.solution.value < |solutions|
    requires a.choice != solutions[a.solution.value].choice || !a.submit
    ensures CalculatedGrade(a, solutions) == Some(0)
  {
  }

  /** Without a solution there is no grade at all, not a zero grade. */
  lemma GradeNeedsSolution(a: Answer, solutions: seq<Solution>)
    requires a.solution.None?
    ensures CalculatedGrade(a, solutions).None?
  {
  }

  /** The free-text part of an answer never affects its grade. */
  lemma GradeIgnoresText(a: Answer, text: Option<string>, solutions: seq<Solution>)
    requires SolutionRefOk(a, solutions)
    ensures CalculatedGrade(a.(text := text), solutions) == CalculatedGrade(a, solutions)
  {
  }

  // ---------------------------------------------------------------------------
  // Final grade of a user on an exam sheet
  // ---------------------------------------------------------------------------

  /** Is `a` an answer by `u` to one of the sheet's tasks? */
  predicate OnSheetBy(a: Answer, sheet: ExamSheet, u: UserId)
  {
    a.task in sheet.tasks && a.creator == u
  }

  predicate RefsOk(answers: seq<Answer>, solutions: seq<Solution>)
  {
    forall a :: a in answers ==> SolutionRefOk(a, solutions)
  }

  /** The answers the final grade is summed over, in table order. */
  function Selected(answers: seq<Answer>, sheet: ExamSheet, u: UserId): (r: seq<Answer>)
    ensures |r| <= |answers|
    ensures forall a :: a in r ==> a in answers && OnSheetBy(a, sheet, u)
    ensures forall a :: a in answers && OnSheetBy(a, sheet, u) ==> a in r
  {
    if answers == [] then []
    else
      var last := answers[|answers| - 1];
      Selected(answers[..|answers| - 1], sheet, u) + (if OnSheetBy(last, sheet, u) then [last] else [])
  }

  /** Addition that propagates a failure. */
  function AddGrades(x: Option<int>, y: Option<int>): Option<int>
  {
    if x.Some? && y.Some? then Some(x.value + y.value) else None
  }

  /** The sum of the grades of `answers`; None when one of them has no solution. */
  function SumGrades(answers: seq<Answer>, solutions: seq<Solution>): (r: Option<int>)
    requires RefsOk(answers, solutions)
    ensures r.None? <==> exists a :: a in answers && a.solution.None?
  {
    if answers == [] then Some(0)
    else
      var last := answers[|answers| - 1];
      assert last in answers;
      AddGrades(SumGrades(answers[..|answers| - 1], solutions), CalculatedGrade(last, solutions))
  }

  /**
   * The final grade of `u` on `sheet`: the sum of the grades of u's answers
   * to the sheet's tasks. Zero when there are none; undefined only when one
   * of those answers has no solution.
   */
  function UserFinalGrade(sheet: ExamSheet, u: UserId, answers: seq<Answer>, solutions: seq<Solution>): (r: Option<int>)
    requires RefsOk(answers, solutions)
    ensures r.None? <==> exists a :: a in answers && OnSheetBy(a, sheet, u) && a.solution.None?
    ensures (forall a :: a in answers ==> !OnSheetBy(a, sheet, u)) ==> r == Some(0)
  {
    var sel := Selected(answers, sheet, u);
    assert sel != [] ==> sel[0] in sel;
    SumGrades(sel, solutions)
  }

  lemma {:induction false} SelectedAppend(xs: seq<Answer>, ys: seq<Answer>, sheet: ExamSheet, u: UserId)
    ensures Selected(xs + ys, sheet, u) == Selected(xs, sheet, u) + Selected(ys, sheet, u)
    decreases |ys|
  {
    if ys == [] {
      assert xs + ys == xs;
    } else {
      var ys' := ys[..|ys| - 1];
      assert (xs + ys)[..|xs + ys| - 1] == xs + ys';
      assert (xs + ys)[|xs + ys| - 1] == ys[|ys| - 1];
      SelectedAppend(xs, ys', sheet, u);
    }
  }

  lemma {:induction false} SumGradesAppend(xs: seq<Answer>, ys: seq<Answer>, solutions: seq<Solution>)
    requires RefsOk(xs, solutions) && RefsOk(ys, solutions)
    ensures RefsOk(xs + ys, solutions)
    ensures SumGrades(xs + ys, solutions) == AddGrades(SumGrades(xs, solutions), SumGrades(ys, solutions))
    decreases |ys|
  {
    if ys == [] {
      assert xs + ys == xs;
    } else {
      var ys' := ys[..|ys| - 1];
      assert (xs + ys)[..|xs + ys| - 1] == xs + ys';
      assert (xs + ys)[|xs + ys| - 1] == ys[|ys| - 1];
      assert forall a :: a in ys' ==> a in ys;
      SumGradesAppend(xs, ys', solutions);
    }
  }

  /** Answers by other users, or to tasks not on the sheet, leave the final grade alone. */
  lemma FinalGradeIgnoresUnrelated(sheet: ExamSheet, u: UserId, answers: seq<Answer>, a: Answer, solutions: seq<Solution>)
    requires RefsOk(answers, solutions) && SolutionRefOk(a, solutions)
    requires a.creator != u || a.task !in sheet.tasks
    ensures RefsOk(answers + [a], solutions)
    ensures UserFinalGrade(sheet, u, answers + [a], solutions) == UserFinalGrade(sheet, u, answers, solutions)
  {
    SelectedAppend(answers, [a], sheet, u);
    assert Selected([a], sheet, u) == [];
    assert Selected(answers + [a], sheet, u) == Selected(answers, sheet, u);
  }

  /** An answer by `u` to a task on the sheet adds exactly its own grade. */
  lemma FinalGradeAddsOwn(sheet: ExamSheet, u: UserId, answers: seq<Answer>, a: Answer, solutions: seq<Solution>)
    requires RefsOk(answers, solutions) && SolutionRefOk(a, solutions)
    requires a.creator == u && a.task in sheet.tasks
    ensures RefsOk(answers + [a], solutions)
    ensures UserFinalGrade(sheet, u, answers + [a], solutions) ==
            AddGrades(UserFinalGrade(sheet, u, answers, solutions), CalculatedGrade(a, solutions))
  {
    var sel := Selected(answers, sheet, u);
    SelectedAppend(answers, [a], sheet, u);
    assert Selected([a], sheet, u) == [a];
    SumGradesAppend(sel, [a], solutions);
    assert [a][..0] == [];
  }

  /**
   * The worked example: a multi-choice task with solutions (true, 5 points)
   * and (false, 4 points), and one user's two submitted answers, both
   * choosing true: grades 5 and 0, final grade 5.
   */
  lemma FinalGradeExample(u: UserId)
    ensures var sheet := ExamSheet(u, None, "template1", true, {0});
            var solutions := [Solution(u, 0, true, Some("answer"), 5), Solution(u, 0, false, Some("answer"), 4)];
            var a1 := Answer(u, 0, Some(0), true, Some("answer"), true);
            var a2 := Answer(u, 0, Some(1), true, Some("answer"), true);
            && CalculatedGrade(a1, solutions) == Some(5)
            && CalculatedGrade(a2, solutions) == Some(0)
            && UserFinalGrade(sheet, u, [a1, a2], solutions) == Some(5)
  {
    var sheet := ExamSheet(u, None, "template1", true, {0});
    var solutions := [Solution(u, 0, true, Some("answer"), 5), Solution(u, 0, false, Some("answer"), 4)];
    var a1 := Answer(u, 0, Some(0), true, Some("answer"), true);
    var a2 := Answer(u, 0, Some(1), true, Some("answer"), true);
    FinalGradeAddsOwn(sheet, u, [], a1, solutions);
    assert [] + [a1] == [a1];
    FinalGradeAddsOwn(sheet, u, [a1], a2, solutions);
    assert [a1] + [a2] == [a1, a2];
  }
}
