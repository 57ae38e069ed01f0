/**
 * Lazy exam instantiation, as a function of the sheets table: what the
 * sheets become when `user` has an answer to task `t` accepted.
 *
 * Per user this is a two-state machine. With no personal (non-template)
 * sheet, the first template containing `t` is forked into one. With exactly
 * one personal sheet, `t` is added to it, whichever template `t` comes from.
 * The lookup spans all templates, so tasks of different templates accumulate
 * on the same personal sheet.
 */
module Instantiation {
  import opened Basics
  import opened Models
  import opened Validation

  predicate IsPersonalOf(s: ExamSheet, u: UserId)
  {
    s.creator == u && !s.template
  }

  predicate IsTemplateWith(s: ExamSheet, t: TaskId)
  {
    s.template && t in s.tasks
  }

  /** The keys of the non-template sheets `u` created. */
  function PersonalSheets(sheets: seq<ExamSheet>, u: UserId): set<SheetId>
  {
    set k | 0 <= k < |sheets| && IsPersonalOf(sheets[k], u)
  }

  /** The lowest key at or above `from` of a template containing `t`. */
  function FirstTemplateFrom(sheets: seq<ExamSheet>, t: TaskId, from: nat): (r: Option<SheetId>)
    requires from <= |sheets|
    ensures r.Some? ==> from <= r.value < |sheets| && IsTemplateWith(sheets[r.value], t)
    ensures r.Some? ==> forall k :: from <= k < r.value ==> !IsTemplateWith(sheets[k], t)
    ensures r.None? ==> forall k :: from <= k < |sheets| ==> !IsTemplateWith(sheets[k], t)
    decreases |sheets| - from
  {
    if from == |sheets| then None
    else if IsTemplateWith(sheets[from], t) then Some(from)
    else FirstTemplateFrom(sheets, t, from + 1)
  }

  /** The first template containing `t` in key order (an unordered `first()`). */
  function FirstTemplateWith(sheets: seq<ExamSheet>, t: TaskId): (r: Option<SheetId>)
    ensures r.Some? ==> r.value < |sheets| && IsTemplateWith(sheets[r.value], t)
    ensures r.Some? ==> forall k :: 0 <= k < r.value ==> !IsTemplateWith(sheets[k], t)
    ensures r.None? <==> forall k :: 0 <= k < |sheets| ==> !IsTemplateWith(sheets[k], t)
  {
    FirstTemplateFrom(sheets, t, 0)
  }

  /**
   * The sheet a fork leaves behind. Cloning a row copies its name and editor
   * but no many-to-many links, so the only task is the answered one.
   */
  function Fork(template: ExamSheet, user: UserId, t: TaskId): (f: ExamSheet)
    ensures IsPersonalOf(f, user) && f.tasks == {t}
    ensures f.name == template.name && f.editor == template.editor
  {
    template.(template := false, creator := user, tasks := {t})
  }

  /** Adds `t` to the task set of every sheet whose key is in `keys`. */
  function AddTaskTo(sheets: seq<ExamSheet>, keys: set<SheetId>, t: TaskId): (r: seq<ExamSheet>)
    ensures |r| == |sheets|
    ensures forall k :: 0 <= k < |sheets| && k !in keys ==> r[k] == sheets[k]
    ensures forall k :: 0 <= k < |sheets| && k in keys ==> r[k] == sheets[k].(tasks := sheets[k].tasks + {t})
  {
    seq(|sheets|, k requires 0 <= k < |sheets| =>
      if k in keys then sheets[k].(tasks := sheets[k].tasks + {t}) else sheets[k])
  }

  /** The sheets after an accepted answer by `user` to task `t`. */
  function Instantiate(sheets: seq<ExamSheet>, user: UserId, t: TaskId): (r: Result<seq<ExamSheet>, Error>)
    ensures r.Err? <==>
      || (PersonalSheets(sheets, user) == {} && forall k :: 0 <= k < |sheets| ==> !IsTemplateWith(sheets[k], t))
      || |PersonalSheets(sheets, user)| > 1
    ensures r == Err(NoTemplateForTask) <==>
      PersonalSheets(sheets, user) == {} && forall k :: 0 <= k < |sheets| ==> !IsTemplateWith(sheets[k], t)
    ensures r == Err(SeveralPersonalSheets) <==> |PersonalSheets(sheets, user)| > 1
  {
    var mine := PersonalSheets(sheets, user);
    if mine == {} then
      match FirstTemplateWith(sheets, t)
      case None => Err(NoTemplateForTask)
      case Some(k) => Ok(sheets + [Fork(sheets[k], user, t)])
    else if |mine| > 1 then Err(SeveralPersonalSheets)
    else Ok(AddTaskTo(sheets, mine, t))
  }

  /** A set of one element is that element alone. */
  lemma Singleton(s: set<SheetId>, p: SheetId)
    requires |s| == 1 && p in s
    ensures s == {p}
  {
    assert |s - {p}| == 0;
  }

  /**
   * First answer by a user without a personal sheet: exactly one sheet is
   * appended, a personal copy of the first template holding `t`, owned by
   * the user, named like the template and holding just `t`; every existing
   * sheet, the template included, is unchanged.
   */
  lemma ForkOnFirstAnswer(sheets: seq<ExamSheet>, user: UserId, t: TaskId)
    requires PersonalSheets(sheets, user) == {}
    requires FirstTemplateWith(sheets, t).Some?
    ensures var k := FirstTemplateWith(sheets, t).value;
            && Instantiate(sheets, user, t).Ok?
            && var r := Instantiate(sheets, user, t).value;
            && |r| == |sheets| + 1
            && r[..|sheets|] == sheets
            && r[|sheets|].creator == user
            && !r[|sheets|].template
            && r[|sheets|].name == sheets[k].name
            && r[|sheets|].tasks == {t}
            && PersonalSheets(r, user) == {|sheets|}
  {
    var r := Instantiate(sheets, user, t).value;
    assert r == sheets + [Fork(sheets[FirstTemplateWith(sheets, t).value], user, t)];
    assert r[..|sheets|] == sheets;
    forall k | 0 <= k < |r| ensures k in PersonalSheets(r, user) <==> k == |sheets|
    {
      if k < |sheets| {
        assert r[k] == sheets[k];
        assert k !in PersonalSheets(sheets, user);
      }
    }
  }

  /**
   * Later answer by a user with one personal sheet: no sheet is created,
   * `t` is added to that sheet by set union, and nothing else changes.
   */
  lemma GrowOnLaterAnswer(sheets: seq<ExamSheet>, user: UserId, t: TaskId, p: SheetId)
    requires |PersonalSheets(sheets, user)| == 1 && p in PersonalSheets(sheets, user)
    ensures Instantiate(sheets, user, t).Ok?
    ensures var r := Instantiate(sheets, user, t).value;
            && |r| == |sheets|
            && r[p] == sheets[p].(tasks := sheets[p].tasks + {t})
            && (forall k :: 0 <= k < |sheets| && k != p ==> r[k] == sheets[k])
  {
    Singleton(PersonalSheets(sheets, user), p);
  }

  /** Answering a task already on the personal sheet changes nothing. */
  lemma GrowIsIdempotent(sheets: seq<ExamSheet>, user: UserId, t: TaskId, p: SheetId)
    requires |PersonalSheets(sheets, user)| == 1 && p in PersonalSheets(sheets, user)
    requires t in sheets[p].tasks
    ensures Instantiate(sheets, user, t) == Ok(sheets)
  {
    GrowOnLaterAnswer(sheets, user, t, p);
    var r := Instantiate(sheets, user, t).value;
    assert sheets[p].tasks + {t} == sheets[p].tasks;
    assert r[p] == sheets[p];
    assert r == sheets;
  }

  /**
   * Whatever the path, a success leaves the user with exactly one personal
   * sheet, and it holds the answered task.
   */
  lemma OnePersonalSheetAfter(sheets: seq<ExamSheet>, user: UserId, t: TaskId)
    requires Instantiate(sheets, user, t).Ok?
    ensures var r := Instantiate(sheets, user, t).value;
            exists p :: PersonalSheets(r, user) == {p} && p < |r| && t in r[p].tasks
  {
    var mine := PersonalSheets(sheets, user);
    var r := Instantiate(sheets, user, t).value;
    if mine == {} {
      ForkOnFirstAnswer(sheets, user, t);
      assert PersonalSheets(r, user) == {|sheets|};
    } else {
      var p :| p in mine;
      Singleton(mine, p);
      GrowOnLaterAnswer(sheets, user, t, p);
      assert PersonalSheets(r, user) == mine by {
        forall k | 0 <= k < |r| ensures IsPersonalOf(r[k], user) == IsPersonalOf(sheets[k], user) {
          if k != p { assert r[k] == sheets[k]; }
        }
      }
      assert PersonalSheets(r, user) == {p};
    }
  }

  /**
   * A success never removes a sheet, never changes a sheet's owner or kind,
   * only grows task sets, and leaves every template as it was.
   */
  lemma InstantiateOnlyGrows(sheets: seq<ExamSheet>, user: UserId, t: TaskId)
    requires Instantiate(sheets, user, t).Ok?
    ensures var r := Instantiate(sheets, user, t).value;
            && |sheets| <= |r| <= |sheets| + 1
            && (forall k :: 0 <= k < |sheets| ==>
                  r[k].creator == sheets[k].creator && r[k].template == sheets[k].template &&
                  r[k].name == sheets[k].name && sheets[k].tasks <= r[k].tasks <= sheets[k].tasks + {t})
            && (forall k :: 0 <= k < |sheets| && sheets[k].template ==> r[k] == sheets[k])
            && (forall k :: |sheets| <= k < |r| ==> IsPersonalOf(r[k], user) && r[k].tasks == {t})
  {
    var mine := PersonalSheets(sheets, user);
    if mine == {} {
      ForkOnFirstAnswer(sheets, user, t);
      var r := Instantiate(sheets, user, t).value;
      forall k | 0 <= k < |sheets| ensures r[k] == sheets[k] {
        assert r[..|sheets|][k] == r[k];
      }
    } else {
      var p :| p in mine;
      Singleton(mine, p);
      GrowOnLaterAnswer(sheets, user, t, p);
    }
  }

  /**
   * Other users' personal sheets are the same before and after: the same
   * keys, and each with the same contents.
   */
  lemma OthersUnaffected(sheets: seq<ExamSheet>, user: UserId, t: TaskId, other: UserId)
    requires Instantiate(sheets, user, t).Ok?
    requires other != user
    ensures PersonalSheets(Instantiate(sheets, user, t).value, other) == PersonalSheets(sheets, other)
    ensures forall k :: k in PersonalSheets(sheets, other) ==> Instantiate(sheets, user, t).value[k] == sheets[k]
  {
    InstantiateOnlyGrows(sheets, user, t);
    var r := Instantiate(sheets, user, t).value;
    forall k | 0 <= k < |r| ensures IsPersonalOf(r[k], other) <==> k < |sheets| && IsPersonalOf(sheets[k], other) {
    }
    var mine := PersonalSheets(sheets, user);
    if mine == {} {
      ForkOnFirstAnswer(sheets, user, t);
      forall k | 0 <= k < |sheets| ensures r[k] == sheets[k] {
        assert r[..|sheets|][k] == r[k];
      }
    } else {
      var p :| p in mine;
      Singleton(mine, p);
      GrowOnLaterAnswer(sheets, user, t, p);
    }
  }

  /**
   * Two accepted answers in a row, to tasks that may come from different
   * templates: the second creates no sheet, and the user's one personal
   * sheet ends up holding both tasks.
   */
  lemma AccumulatesAcrossTemplates(sheets: seq<ExamSheet>, user: UserId, t1: TaskId, t2: TaskId)
    requires Instantiate(sheets, user, t1).Ok?
    ensures var s1 := Instantiate(sheets, user, t1).value;
            && Instantiate(s1, user, t2).Ok?
            && var s2 := Instantiate(s1, user, t2).value;
            && |s2| == |s1|
            && exists p :: PersonalSheets(s2, user) == {p} && p < |s2| && t1 in s2[p].tasks && t2 in s2[p].tasks
  {
    var s1 := Instantiate(sheets, user, t1).value;
    OnePersonalSheetAfter(sheets, user, t1);
    var p :| PersonalSheets(s1, user) == {p} && p < |s1| && t1 in s1[p].tasks;
    GrowOnLaterAnswer(s1, user, t2, p);
    var s2 := Instantiate(s1, user, t2).value;
    assert t1 in s2[p].tasks && t2 in s2[p].tasks;
    OnePersonalSheetAfter(s1, user, t2);
    var q :| PersonalSheets(s2, user) == {q} && q < |s2| && t2 in s2[q].tasks;
    assert IsPersonalOf(s2[p], user);
    assert p in PersonalSheets(s2, user);
  }
}
