/** The column card: an icon chosen from the column's name, and the issue count's label. */
module ColumnDisplay {
  import opened Js

  datatype ColumnIcon = ToDoIcon | InProgressIcon | DoneIcon | UnknownIcon

  predicate LooksToDo(lower: string) {
    Includes(lower, "to do") || Includes(lower, "open") || Includes(lower, "backlog")
  }

  predicate LooksInProgress(lower: string) {
    Includes(lower, "in progress") || Includes(lower, "development") || Includes(lower, "review")
  }

  predicate LooksDone(lower: string) {
    Includes(lower, "done") || Includes(lower, "closed") || Includes(lower, "resolved")
  }

  /** `getIconForColumn`: the first keyword group the lower-cased name matches, to-do first. */
  function IconFor(name: string): (icon: ColumnIcon)
    ensures icon == ToDoIcon <==> LooksToDo(ToLower(name))
    ensures icon == InProgressIcon <==> !LooksToDo(ToLower(name)) && LooksInProgress(ToLower(name))
    ensures icon == DoneIcon <==>
              !LooksToDo(ToLower(name)) && !LooksInProgress(ToLower(name)) && LooksDone(ToLower(name))
    ensures icon == UnknownIcon <==>
              !LooksToDo(ToLower(name)) && !LooksInProgress(ToLower(name)) && !LooksDone(ToLower(name))
  {
    var lower := ToLower(name);
    if LooksToDo(lower) then ToDoIcon
    else if LooksInProgress(lower) then InProgressIcon
    else if LooksDone(lower) then DoneIcon
    else UnknownIcon
  }

  /** "issue" for exactly one, "issues" otherwise (zero included). */
  function IssueLabel(count: int): (word: string)
    ensures word == "issue" <==> count == 1
    ensures word == "issue" || word == "issues"
  {
    if count == 1 then "issue" else "issues"
  }

  /** Lower-casing after upper-casing is lower-casing. */
  lemma LowerOfUpper(s: string)
    ensures ToLower(ToUpper(s)) == ToLower(s)
  {
  }

  /** The icon ignores letter case. */
  lemma IconIgnoresCase(name: string)
    ensures IconFor(ToLower(name)) == IconFor(name)
    ensures IconFor(ToUpper(name)) == IconFor(name)
  {
    ToLowerIdempotent(name);
    LowerOfUpper(name);
  }

  /** A to-do keyword wins over every later group: "Reopened" is to-do, though "open" is inside a word. */
  lemma ReopenedIsToDo()
    ensures IconFor("Reopened") == ToDoIcon
  {
    var lower := ToLower("Reopened");
    assert lower == "reopened";
    assert StartsWith(lower[2..], "open");
  }

  lemma LowerReviewDone()
    ensures ToLower("Review Done") == "review done"
  {
    var lower := ToLower("Review Done");
    assert lower[0] == 'r' && lower[7] == 'd';
    assert forall i :: 0 <= i < 11 ==> lower[i] == "review done"[i];
  }

  lemma ReviewDoneNotToDo(lower: string)
    requires lower == "review done"
    ensures !LooksToDo(lower)
  {
    forall i | 0 <= i < |lower| ensures lower[i] != 't' && lower[i] != 'p' && lower[i] != 'b' {
    }
    MissingCharExcludes(lower, "to do", 0);
    MissingCharExcludes(lower, "open", 1);
    MissingCharExcludes(lower, "backlog", 0);
  }

  lemma ReviewDoneMatches(lower: string)
    requires lower == "review done"
    ensures LooksInProgress(lower) && LooksDone(lower)
  {
    assert StartsWith(lower, "review");
    assert lower[7..] == "done";
    assert StartsWith(lower[7..], "done");
    IncludesMiddle(lower[..7], "done", "");
    assert lower[..7] + "done" + "" == lower;
  }

  /** "Review Done" matches both the in-progress and the done group; in-progress is checked first. */
  lemma ReviewDoneIsInProgress()
    ensures IconFor("Review Done") == InProgressIcon
    ensures LooksDone(ToLower("Review Done"))
  {
    LowerReviewDone();
    ReviewDoneNotToDo(ToLower("Review Done"));
    ReviewDoneMatches(ToLower("Review Done"));
  }

  /**
   * Every keyword starts with one of t, o, b, i, d, r, c; a name with none of
   * these letters in either case (such as "QA") gets the unknown icon.
   */
  lemma NoKeywordLettersIsUnknown(name: string)
    requires forall i :: 0 <= i < |name| ==> LowerChar(name[i]) !in "tobidrc"
    ensures IconFor(name) == UnknownIcon
  {
    var lower := ToLower(name);
    assert forall i :: 0 <= i < |lower| ==> lower[i] !in "tobidrc";
    MissingCharExcludes(lower, "to do", 0);
    MissingCharExcludes(lower, "open", 0);
    MissingCharExcludes(lower, "backlog", 0);
    MissingCharExcludes(lower, "in progress", 0);
    MissingCharExcludes(lower, "development", 0);
    MissingCharExcludes(lower, "review", 0);
    MissingCharExcludes(lower, "done", 0);
    MissingCharExcludes(lower, "closed", 0);
    MissingCharExcludes(lower, "resolved", 0);
  }
}
