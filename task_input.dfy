/** The new-task form: nine pieces of state (title, date, font, two colors,
    three style flags, whether the formatting panel is open), updated by
    the form's controls, by the theme, and by submitting. The form's
    dates are day numbers; the store casts a submitted day to the instant
    at which it starts. */
module TaskInput {
  import opened Common

  /** The fonts the font picker offers. */
  const FontStyles := ["Inter", "Georgia", "Times New Roman", "Courier New",
                       "Arial", "Verdana", "Comic Sans MS", "Trebuchet MS"]
  /** The colors of the preset swatches. */
  const PresetColors := ["#000000", "#ef4444", "#f97316", "#eab308",
                         "#22c55e", "#3b82f6", "#8b5cf6", "#ec4899"]

  // ---------------------------------------------------------------------
  // String.prototype.trim
  // ---------------------------------------------------------------------

  /** The characters `trim` removes: ECMAScript white space and line
      terminators. */
  predicate IsWhitespace(c: char)
  {
    var n := c as int;
    || 0x09 <= n <= 0x0D || n == 0x20 || n == 0xA0 || n == 0x1680
    || 0x2000 <= n <= 0x200A
    || n == 0x2028 || n == 0x2029 || n == 0x202F || n == 0x205F
    || n == 0x3000 || n == 0xFEFF
  }

  /** Every character of `s` is white space (the empty string included). */
  predicate Blank(s: string)
  {
    forall i :: 0 <= i < |s| ==> IsWhitespace(s[i])
  }

  /** Drops leading white space. */
  function TrimStart(s: string): (r: string)
    ensures |r| <= |s| && r == s[|s| - |r|..]
    ensures r != [] ==> !IsWhitespace(r[0])
  {
    if s != [] && IsWhitespace(s[0]) then TrimStart(s[1..]) else s
  }

  /** Drops trailing white space. */
  function TrimEnd(s: string): (r: string)
    ensures |r| <= |s| && r == s[..|r|]
    ensures r != [] ==> !IsWhitespace(r[|r| - 1])
  {
    if s != [] && IsWhitespace(s[|s| - 1]) then TrimEnd(s[..|s| - 1]) else s
  }

  /** `String.prototype.trim`. */
  function Trim(s: string): string
  {
    TrimEnd(TrimStart(s))
  }

  lemma {:induction false} TrimStartEmptyIffBlank(s: string)
    ensures TrimStart(s) == "" <==> Blank(s)
  {
    if s != [] && IsWhitespace(s[0]) {
      TrimStartEmptyIffBlank(s[1..]);
      assert Blank(s) <==> Blank(s[1..]) by {
        if Blank(s[1..]) {
          forall i | 0 < i < |s| ensures IsWhitespace(s[i]) {
            assert s[i] == s[1..][i - 1];
          }
        }
      }
    }
  }

  lemma {:induction false} TrimEndEmptyIffBlank(s: string)
    ensures TrimEnd(s) == "" <==> Blank(s)
  {
    if s != [] && IsWhitespace(s[|s| - 1]) {
      TrimEndEmptyIffBlank(s[..|s| - 1]);
      assert Blank(s) <==> Blank(s[..|s| - 1]) by {
        if Blank(s[..|s| - 1]) {
          forall i | 0 <= i < |s| - 1 ensures IsWhitespace(s[i]) {
            assert s[i] == s[..|s| - 1][i];
          }
        }
      }
    }
  }

  /** `title.trim()` is falsy exactly when the title is blank. */
  lemma {:induction false} TrimEmptyIffBlank(s: string)
    ensures Trim(s) == "" <==> Blank(s)
  {
    var a := TrimStart(s);
    TrimStartEmptyIffBlank(s);
    TrimEndEmptyIffBlank(a);
    assert Blank(a) <==> a == "" by {
      if a != "" {
        assert !IsWhitespace(a[0]);
      }
    }
  }

  // ---------------------------------------------------------------------
  // Submitting
  // ---------------------------------------------------------------------

  /** What `handleSubmit` decides: a date before today is refused (with an
      alert), then a blank title is ignored, otherwise the task is added. */
  datatype Verdict = PastDate | BlankTitle | Accepted

  function CheckSubmit(date: int, today: int, title: string): (v: Verdict)
    ensures v == PastDate <==> date < today
    ensures v == BlankTitle <==> date >= today && Blank(title)
    ensures v == Accepted <==> date >= today && !Blank(title)
    ensures v == Accepted ==> title != ""
  {
    TrimEmptyIffBlank(title);
    if date < today then PastDate
    else if Trim(title) == "" then BlankTitle
    else Accepted
  }

  /** The arguments of one `onAdd(title, formatting)` call. */
  datatype Submission = Submission(
    title: string,
    fontStyle: string,
    fontColor: string,
    isBold: bool,
    isItalic: bool,
    isUnderline: bool,
    date: int)

  class TaskInputForm {
    var title: string
    var showFormatting: bool
    var fontStyle: string
    var fontColor: string
    var customColor: string
    var isBold: bool
    var isItalic: bool
    var isUnderline: bool
    var date: int

    /** The form as first drawn on day `today`. */
    constructor (today: int)
      ensures title == "" && !showFormatting && fontStyle == "Inter"
      ensures fontColor == "#000000" && customColor == "#000000"
      ensures !isBold && !isItalic && !isUnderline && date == today
    {
      title := "";
      showFormatting := false;
      fontStyle := "Inter";
      fontColor := "#000000";
      customColor := "#000000";
      isBold := false;
      isItalic := false;
      isUnderline := false;
      date := today;
    }

    /** The effect that runs whenever the theme changes: both colors
        become the theme's default. */
    method OnThemeChange(isDark: bool)
      modifies this`fontColor, this`customColor
      ensures fontColor == ThemeColor(isDark) && customColor == ThemeColor(isDark)
    {
      fontColor := ThemeColor(isDark);
      customColor := ThemeColor(isDark);
    }

    method ToggleFormatting()
      modifies this`showFormatting
      ensures showFormatting == !old(showFormatting)
    {
      showFormatting := !showFormatting;
    }

    method ToggleBold()
      modifies this`isBold
      ensures isBold == !old(isBold)
    {
      isBold := !isBold;
    }

    method ToggleItalic()
      modifies this`isItalic
      ensures isItalic == !old(isItalic)
    {
      isItalic := !isItalic;
    }

    method ToggleUnderline()
      modifies this`isUnderline
      ensures isUnderline == !old(isUnderline)
    {
      isUnderline := !isUnderline;
    }

    method EditTitle(value: string)
      modifies this`title
      ensures title == value
    {
      title := value;
    }

    method PickDate(value: int)
      modifies this`date
      ensures date == value
    {
      date := value;
    }

    method PickFont(value: string)
      requires value in FontStyles
      modifies this`fontStyle
      ensures fontStyle == value
    {
      fontStyle := value;
    }

    /** A preset swatch sets the text color only (the swatch stays). */
    method PickPresetColor(color: string)
      requires color in PresetColors
      modifies this`fontColor
      ensures fontColor == color
    {
      fontColor := color;
    }

    /** The custom color input sets the text color and the swatch. */
    method PickCustomColor(color: string)
      modifies this`fontColor, this`customColor
      ensures fontColor == color && customColor == color
    {
      fontColor := color;
      customColor := color;
    }

    /** The title and formatting currently entered. */
    function Current(): Submission
      reads this
    {
      Submission(title, fontStyle, fontColor, isBold, isItalic, isUnderline, date)
    }

    /** Every field back at its starting value for day `today`, the colors
        at the theme's default and the panel closed. */
    predicate Cleared(today: int, isDark: bool)
      reads this
    {
      && title == "" && fontStyle == "Inter"
      && fontColor == ThemeColor(isDark) && customColor == ThemeColor(isDark)
      && !isBold && !isItalic && !isUnderline
      && date == today && !showFormatting
    }

    /** The reset that follows an accepted submit. */
    method Clear(today: int, isDark: bool)
      modifies this
      ensures Cleared(today, isDark)
    {
      title := "";
      fontStyle := "Inter";
      fontColor := ThemeColor(isDark);
      customColor := ThemeColor(isDark);
      isBold := false;
      isItalic := false;
      isUnderline := false;
      date := today;
      showFormatting := false;
    }

    /** `handleSubmit` on day `today`. A refused or ignored submit calls
        nothing and changes nothing; an accepted one calls `onAdd` once
        with the title as typed and the current formatting, then resets
        every field. */
    method HandleSubmit(today: int, isDark: bool) returns (added: Option<Submission>)
      modifies this
      ensures CheckSubmit(old(date), today, old(title)) != Accepted ==> added.None? && unchanged(this)
      ensures CheckSubmit(old(date), today, old(title)) == Accepted ==>
                added == Some(old(Current())) && Cleared(today, isDark)
    {
      var verdict := CheckSubmit(date, today, title);
      if verdict != Accepted {
        return None;
      }
      added := Some(Current());
      Clear(today, isDark);
    }
  }
}
