# Exam sheets: grading, write-time validation and lazy exam instantiation

This project models the business logic of a small exam backend. Authors build
template exam sheets out of tasks (multi-choice, text, true/false) and give
each task reference solutions worth some points. Test-takers answer tasks.
The first accepted answer of a user forks a personal (non-template) exam
sheet. Later answers add their tasks to that same sheet. A user's grade on a
sheet is computed from the answers.

Modules, one per concern of the source:

- `Basics` (`basics.dfy`): keys and the `Option`/`Result` wrappers.
- `Models` (`models.dfy`): the entities, the task types and defaults, the
  (creator, solution) uniqueness constraint on answers, the grade of one
  answer and a user's final grade on a sheet. These are pure functions.
- `Permissions` (`permissions.dfy`): the object permission decision, a pure
  function of "is the caller the creator" and the action name.
- `Validation` (`validation.dfy`): the checks run before a task, solution or
  answer is stored, as pure functions returning the refusal reason or
  `None`.
- `Instantiation` (`instantiation.dfy`): what an accepted answer does to the
  sheets table, as a pure specification (`Instantiate`), with its properties.
- `Serializers` (`store.dfy`): the `Store` class. It holds the four tables as
  `seq` fields, and has one method per write. `CreateAnswer`,
  `CreateExamBasedOnTemplate` and `AddTaskToExistingExam` change the sheets
  step by step, as the source does. Each is proved against the pure
  specification. `Valid()` is a consistency invariant that every write keeps.
  The invariant includes "every answered task is on a personal sheet of the
  answer's author".
- `Walkthrough` (`store.dfy`): client methods that play one designed scenario
  through the store's contracts. An author builds a template with a
  true/false task and a 5-point solution. A second solution is refused. A
  student's first answer forks a personal exam. A repeated answer is
  refused. The student's final grade is 5.

Modelling choices:

- Every table is append-only and a row's key is its position, as with
  auto-increment primary keys.
- An unordered `first()` orders by primary key, so "the first template
  containing the task" is the template with the lowest key.
- The task/sheet many-to-many relation is stored on the sheet side
  (`ExamSheet.tasks`).
- The creator of every new row is the acting user, as the view's
  `perform_create` sets it (exam/sheets/views.py:21-22).
- The fork clones the template row by clearing its primary key. Django copies
  no many-to-many links on such a clone. So the new personal sheet holds only
  the answered task, not the template's task set. It keeps the template's
  name and editor. One might expect the fork to copy the template's tasks,
  but the code links only the answered task, and the model follows the code.
- The personal-sheet lookup is per user across all templates. So tasks of
  different templates accumulate on one personal sheet
  (`AccumulatesAcrossTemplates`).
- Instantiation fails in two cases. In the first, no template contains the
  task. In the second, the user owns several personal sheets; the sheet
  endpoint lets a user create personal sheets directly. In both cases the
  request is modelled as rolled back, and neither the answer nor any sheet is
  stored.
- The first case cannot arise through the modelled writes. Task creation
  puts every task on a template of its author (the first sheet it names, which
  validation checks). Nothing removes a task from a template, and templates are
  never changed by instantiation. So the consistency invariant includes
  `TasksOnTemplates`, and `StoredTaskHasTemplate` proves that, for a stored
  task, instantiation fails only when the user has several personal sheets.
- A refused write changes nothing. Checks are modelled as one function that
  returns the first failing reason.
- A grade whose answer has no solution is `None`. The source dereferences the
  missing solution and fails; it does not return 0. Through the create path
  every stored answer has a solution. So in a consistent store every final
  grade is defined (`FinalGradeDefined`).

## Model

| member | source | states |
|---|---|---|
| `Models.UniqueTogetherInsert` | exam/sheets/models.py:83-84 | adding an answer keeps the (creator, solution) uniqueness exactly when that user has not answered that solution yet (both directions) |
| `Models.CalculatedGrade` | exam/sheets/models.py:95-100 | the grade is undefined exactly when the answer has no solution; otherwise it is 0 or the solution's points |
| `Models.GradeOnMatch` | exam/sheets/models.py:96-98 | a submitted answer with the solution's boolean choice earns the solution's points |
| `Models.GradeOnMismatch` | exam/sheets/models.py:99-100 | a different choice, or an unsubmitted answer, earns 0 |
| `Models.GradeNeedsSolution` | exam/sheets/models.py:89-97 | an answer without a solution has no grade (a failure, not 0) |
| `Models.GradeIgnoresText` | exam/sheets/models.py:97 | changing the free-text answer never changes the grade |
| `Models.Selected` | exam/sheets/models.py:32 | the answers summed are exactly the answers by the user to tasks on the sheet |
| `Models.SumGrades` | exam/sheets/models.py:33 | the sum is undefined exactly when one summed answer has no solution |
| `Models.UserFinalGrade` | exam/sheets/models.py:31-33 | the final grade is 0 when the user has no answer on the sheet, and undefined only when one of the user's answers on the sheet has no solution |
| `Models.SelectedAppend` | exam/sheets/models.py:32 | filtering distributes over concatenation of the answers table |
| `Models.SumGradesAppend` | exam/sheets/models.py:33 | the sum over a concatenation is the sum of the sums |
| `Models.FinalGradeIgnoresUnrelated` | exam/sheets/models.py:32 | an answer by another user, or to a task not on the sheet, leaves the final grade unchanged |
| `Models.FinalGradeAddsOwn` | exam/sheets/models.py:31-33 | an answer by the user to a task on the sheet adds exactly its own grade |
| `Models.FinalGradeExample` | exam/sheets/tests.py:273-305 | solutions (true, 5) and (false, 4), two submitted answers choosing true: grades 5 and 0, final grade 5 |
| `Permissions.HasObjectPermission` | exam/sheets/permissions.py:6-16 | only the four named actions can be granted; reading is always granted; a non-owner is granted exactly the reads |
| `Permissions.OwnerMayPatch` | exam/sheets/permissions.py:10-12 | the owner is granted `partial_update` and `perform_destroy` |
| `Permissions.AnyoneMayRead` | exam/sheets/permissions.py:13-14 | `retrieve` and `list` are granted to owner and non-owner alike |
| `Permissions.NonOwnerOnlyReads` | exam/sheets/permissions.py:10-16 | a non-owner is granted an action if and only if it is `retrieve` or `list` |
| `Permissions.ClosedWorld` | exam/sheets/permissions.py:10-16 | every other action, `update` and `destroy` included, is denied even to the owner |
| `Permissions.DependsOnlyOnOwnership` | exam/sheets/permissions.py:10-16 | the decision depends only on whether the caller is the creator, and on the action |
| `Permissions.OwnerAtLeastNonOwner` | exam/sheets/permissions.py:10-16 | whatever any caller is granted, the owner is granted too |
| `Permissions.OwnerCannotDelete` | exam/sheets/permissions.py:10-12 | as written, an owner's DELETE (action `destroy`) is denied while a PATCH is granted |
| `Permissions.IntendedObjectPermission` | exam/sheets/permissions.py:10-16 | the corrected decision keeps the read rules and grants `destroy` instead of `perform_destroy` |
| `Permissions.IntendedOwnerMayDelete` | exam/sheets/permissions.py:10-12 | with the corrected name, `destroy` and `partial_update` are granted if and only if the caller is the owner |
| `Validation.ValidateTask` | exam/sheets/serializers.py:72-77 | a task is accepted iff it names at least one existing sheet and the first one is a template the caller created; the specific refusals for not yours and not a template |
| `Validation.OnlyFirstTargetChecked` | exam/sheets/serializers.py:73-76 | a task aimed at the caller's template and then at another user's personal sheet is accepted |
| `Validation.ValidateSolution` | exam/sheets/serializers.py:53-61 | a solution is accepted iff its task exists, is the caller's, and is multi-choice or has no solution yet; a second solution to another task type is refused as too many |
| `Validation.AcceptedSolutionKeepsInvariants` | exam/sheets/serializers.py:53-61 | after storing an accepted solution, every solution is still written by its task's author and only multi-choice tasks have two solutions |
| `Validation.MultiChoiceTakesMany` | exam/sheets/serializers.py:58-60 | a multi-choice task of the caller's accepts a solution, and another one after that |
| `Validation.SecondTrueFalseSolutionRefused` | exam/sheets/serializers.py:58-60 | once a true/false task has a solution, a further one is refused with the cardinality error |
| `Validation.ValidateAnswer` | exam/sheets/serializers.py:13-21 | an answer is accepted iff its task and solution exist, the solution belongs to the answered task, and the user has not answered that solution; which error each failure gives |
| `Validation.AcceptedAnswerKeepsInvariants` | exam/sheets/serializers.py:18-21 | storing an accepted answer keeps (creator, solution) uniqueness and task/solution agreement, and the same answer is then refused as already answered |
| `Instantiation.FirstTemplateFrom` | exam/sheets/serializers.py:32 | the result is the lowest key at or above the start of a template containing the task, or none exists there |
| `Instantiation.Fork` | exam/sheets/serializers.py:33-38 | the cloned sheet is a personal sheet of the answering user, holding only the answered task, with the template's name and editor |
| `Instantiation.FirstTemplateWith` | exam/sheets/serializers.py:32 | the result is the lowest-keyed template containing the task; it is absent iff no template contains it |
| `Instantiation.AddTaskTo` | exam/sheets/serializers.py:42 | the task is added by set union to exactly the named sheets, all others unchanged |
| `Instantiation.Instantiate` | exam/sheets/serializers.py:25-43 | instantiation fails iff the user has no personal sheet and no template holds the task, or has several personal sheets, and with which error |
| `Instantiation.ForkOnFirstAnswer` | exam/sheets/serializers.py:31-38 | with no personal sheet: exactly one sheet is appended, not a template, owned by the user, named like the first template with the task, holding just the task; the existing sheets, templates included, are unchanged; it is now the user's only personal sheet |
| `Instantiation.GrowOnLaterAnswer` | exam/sheets/serializers.py:40-43 | with one personal sheet: no sheet is created, the task is added to that sheet by union, nothing else changes |
| `Instantiation.GrowIsIdempotent` | exam/sheets/serializers.py:42 | re-adding a task already on the personal sheet leaves the table unchanged |
| `Instantiation.OnePersonalSheetAfter` | exam/sheets/serializers.py:25-43 | after any success the user has exactly one personal sheet, and it holds the answered task |
| `Instantiation.InstantiateOnlyGrows` | exam/sheets/serializers.py:31-43 | a success adds at most one sheet, changes no owner, kind or name, only adds the answered task, and leaves every template as it was |
| `Instantiation.OthersUnaffected` | exam/sheets/serializers.py:25-28 | other users' personal sheets are the same keys before and after, each with the same contents |
| `Instantiation.AccumulatesAcrossTemplates` | exam/sheets/serializers.py:25-28 | a second accepted answer, from any template, creates no sheet, and the one personal sheet holds both tasks |
| `Serializers.NewSheetKeepsConsistency` | exam/sheets/views.py:21-22 | creating a sheet keeps the store consistent |
| `Serializers.AcceptedTaskKeepsConsistency` | exam/sheets/serializers.py:64-77 | storing an accepted task and linking it to its sheets keeps the store consistent; the checked first sheet puts the new task on a template of its author |
| `Serializers.StoredTaskHasTemplate` | exam/sheets/serializers.py:31-33 | in a consistent store a template holds every stored task, so answering a stored task fails to instantiate only when the user has several personal sheets |
| `Serializers.AcceptedSolutionKeepsConsistency` | exam/sheets/serializers.py:46-61 | storing an accepted solution keeps the store consistent |
| `Serializers.AcceptedAnswerKeepsConsistency` | exam/sheets/serializers.py:23-43 | storing an accepted answer and instantiating keeps the store consistent, including that every answered task is on its author's personal sheet |
| `Serializers.FinalGradeDefined` | exam/sheets/models.py:31-33 | in a consistent store every user's final grade on every sheet is defined |
| `Serializers.Store.FinalGrade` | exam/sheets/models.py:31-33 | returns the user's final grade on a stored sheet, which is always defined |
| `Serializers.Store.CreateSheet` | exam/sheets/views.py:21-22 | appends a sheet owned by the caller, a template unless it says otherwise, with no tasks; other tables unchanged |
| `Serializers.Store.CreateTask` | exam/sheets/serializers.py:64-77 | refused exactly when `ValidateTask` refuses, changing nothing; otherwise appends the caller's task (TEXT by default) and links it to every named sheet |
| `Serializers.Store.CreateSolution` | exam/sheets/serializers.py:46-61 | refused exactly when `ValidateSolution` refuses, changing nothing; otherwise appends the caller's solution (1 point by default) |
| `Serializers.Store.CreateAnswer` | exam/sheets/serializers.py:23-29 | succeeds iff validation and instantiation both succeed; then the answer is appended and the sheets are `Instantiate`'s result; otherwise nothing changes |
| `Serializers.Store.CreateExamBasedOnTemplate` | exam/sheets/serializers.py:31-38 | fails iff no template holds the task; otherwise appends the fork of the first such template; equals `Instantiate` for a user without a personal sheet |
| `Serializers.Store.AddTaskToExistingExam` | exam/sheets/serializers.py:40-43 | adds the task to the user's single personal sheet and fails with several; equals `Instantiate` for a user with a personal sheet |

## Findings

| source | as written | input that shows it | evidently intended | confidence | as-written member | corrected member |
|---|---|---|---|---|---|---|
| exam/sheets/permissions.py:10-12 | the owner may act only under the action names `partial_update` and `perform_destroy` | the owner sends DELETE for their own exam sheet: the view action is `destroy` (`perform_destroy` is a view hook, never an action), so the request is denied | the owner may delete their own objects (action `destroy`) | medium, not executed | `Permissions.OwnerCannotDelete` | `Permissions.IntendedOwnerMayDelete` |

Nothing else in the model depends on the permission decision. Both versions
are kept side by side.

## Left out

- HTTP routing, the filter and ordering backends, the action-keyed serializer
  table and the `exams`/`templates` list endpoints of exam/sheets/views.py are
  framework plumbing. Only the rule that the creator is the acting user is
  kept.
- exam/sheets/fields.py is not part of this model. It only formats reverse
  relation names.
- Timestamps, the `editor` set on update, `Answer.grade` and the unused
  `Task.max_grade` are not modelled. A client may send `Answer.grade` when
  creating an answer, but the app never computes or reads it.
  `max_grade` is kept as an always-empty field.
- `ExamSheetSerializer.get_your_final_grade` is not exposed, because it is
  not in the serializer's fields. `Store.FinalGrade` plays its role.
- Updates and deletes are not modelled; only creation is. So the answer
  check is modelled only on POST; on other methods the source skips the
  task/solution comparison.
- `Models.CalculatedGrade`: a solution whose `points` is null is not modelled
  (points are an `int`, default 1). With null points the source's grade would
  be null and the final-grade sum would fail.
- When several checks fail, the framework reports all field errors together.
  The model returns one reason.
- Transactions and the concurrent first-fork race are not modelled. A failed
  instantiation is modelled as a rollback of the whole request. The project
  settings that would decide this are not part of this model.
- Answers written directly through the ORM, bypassing the create path (for
  example without a solution), are outside the store. The pure grading
  functions still cover them through `None`.
