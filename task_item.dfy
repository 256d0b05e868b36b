/** How one task row is drawn: the text style computed from the task's
    formatting fields and completion state, and the arguments its controls
    hand back to the list. */
module TaskItem {
  import opened Common
  import opened TaskModel

  /** The inline style object applied to the task's title. */
  datatype TextStyle = TextStyle(
    fontFamily: string,
    color: string,
    fontWeight: string,
    fontStyle: string,
    textDecoration: string)

  /** `getTextStyle`: the decoration combines underline and strike-through;
      an empty font or color falls back to a default, the color one
      depending on the theme. */
  function GetTextStyle(task: Task, isDark: bool): (s: TextStyle)
    ensures s.textDecoration == "underline line-through" <==> task.isUnderline && task.isCompleted
    ensures s.textDecoration == "underline" <==> task.isUnderline && !task.isCompleted
    ensures s.textDecoration == "line-through" <==> !task.isUnderline && task.isCompleted
    ensures s.textDecoration == "" <==> !task.isUnderline && !task.isCompleted
    ensures task.fontStyle != "" ==> s.fontFamily == task.fontStyle
    ensures task.fontStyle == "" ==> s.fontFamily == "Inter"
    ensures task.fontColor != "" ==> s.color == task.fontColor
    ensures task.fontColor == "" && isDark ==> s.color == "#ffffff"
    ensures task.fontColor == "" && !isDark ==> s.color == "#000000"
    ensures s.fontWeight == (if task.isBold then "bold" else "normal")
    ensures s.fontStyle == (if task.isItalic then "italic" else "normal")
  {
    var textDecoration :=
      if task.isUnderline && task.isCompleted then "underline line-through"
      else if task.isUnderline then "underline"
      else if task.isCompleted then "line-through"
      else "";
    TextStyle(
      OrElse(Some(task.fontStyle), DefaultFontStyle),
      OrElse(Some(task.fontColor), ThemeColor(isDark)),
      if task.isBold then "bold" else "normal",
      if task.isItalic then "italic" else "normal",
      textDecoration)
  }

  /** `w` occurs in `s` starting at position `i`. */
  predicate OccursAt(s: string, w: string, i: int)
  {
    0 <= i && i + |w| <= |s| && s[i..i + |w|] == w
  }

  /** `w` occurs in `s` at some position. */
  ghost predicate Mentions(s: string, w: string)
  {
    exists i :: OccursAt(s, w, i)
  }

  /** `w` cannot occur in `s` when its first character occurs at no
      position where `w` would fit. */
  lemma NotMentioned(s: string, w: string)
    requires w != []
    requires forall i :: 0 <= i && i + |w| <= |s| ==> s[i] != w[0]
    ensures !Mentions(s, w)
  {
    forall i | 0 <= i && i + |w| <= |s| ensures !OccursAt(s, w, i) {
      assert s[i..i + |w|][0] == s[i];
    }
  }

  lemma MentionedAt(s: string, w: string, i: nat)
    requires OccursAt(s, w, i)
    ensures Mentions(s, w)
  {
  }

  /** Read as CSS, the decoration names a line through the text exactly
      when the task is completed, and an underline exactly when it is
      underlined. */
  lemma {:induction false} DecorationNamesBothEffects(task: Task, isDark: bool)
    ensures var d := GetTextStyle(task, isDark).textDecoration;
            && (Mentions(d, "line-through") <==> task.isCompleted)
            && (Mentions(d, "underline") <==> task.isUnderline)
  {
    var d := GetTextStyle(task, isDark).textDecoration;
    var both := "underline line-through";
    if task.isUnderline && task.isCompleted {
      assert both[0..9] == "underline" && both[10..22] == "line-through";
      MentionedAt(both, "underline", 0);
      MentionedAt(both, "line-through", 10);
    } else if task.isUnderline {
      MentionedAt(d, "underline", 0);
      NotMentioned(d, "line-through");
    } else if task.isCompleted {
      MentionedAt(d, "line-through", 0);
      NotMentioned(d, "underline");
    } else {
      NotMentioned(d, "line-through");
      NotMentioned(d, "underline");
    }
  }

  /** What the completion checkbox hands to `onToggleComplete`. */
  function CompleteArgs(task: Task): (Id, bool)
  {
    (task.id, task.isCompleted)
  }

  /** What the star button hands to `onTogglePriority`. */
  function PriorityArgs(task: Task): (Id, bool)
  {
    (task.id, task.isPriority)
  }

  /** What the bin button hands to `onDelete`. */
  function DeleteArgs(task: Task): Id
  {
    task.id
  }
}
