/** The Task document of the backend: its fields, the two required ones,
    the defaults the schema fills in, and the timestamps the store keeps. */
module TaskModel {
  import opened Common

  /** A stored task. `id` is the document's `_id`, `userId` its owner;
      `date`, `createdAt` and `updatedAt` are instants, in milliseconds
      since the epoch (a Mongoose `Date`). */
  datatype Task = Task(
    id: Id,
    userId: Id,
    title: string,
    isCompleted: bool,
    isPriority: bool,
    date: int,
    fontStyle: string,
    fontColor: string,
    isBold: bool,
    isItalic: bool,
    isUnderline: bool,
    createdAt: int,
    updatedAt: int)

  /** The fields a caller hands to the store, each possibly absent: the
      argument of a create, or the body of an update that is merged into
      a stored task. */
  datatype TaskFields = TaskFields(
    userId: Option<Id>,
    title: Option<string>,
    isCompleted: Option<bool>,
    isPriority: Option<bool>,
    date: Option<int>,
    fontStyle: Option<string>,
    fontColor: Option<string>,
    isBold: Option<bool>,
    isItalic: Option<bool>,
    isUnderline: Option<bool>)

  const NoFields := TaskFields(None, None, None, None, None, None, None, None, None, None)

  const DefaultFontStyle := "Inter"
  const DefaultFontColor := "#000000"

  // ---------------------------------------------------------------------
  // Days and instants
  // ---------------------------------------------------------------------

  const DayMillis := 86400000

  /** The instant at which day number `day` begins: a "YYYY-MM-DD" value
      cast to a `Date` is that day's UTC midnight. */
  function DayStart(day: int): int
  {
    day * DayMillis
  }

  /** The day number an instant falls on. */
  function DayOf(instant: int): int
  {
    instant / DayMillis
  }

  /** Every instant lies in the day `DayOf` gives it, and a day's start
      falls on that day: `DayOf` and `DayStart` are a round trip. */
  lemma DayOfBounds(instant: int, day: int)
    ensures DayStart(DayOf(instant)) <= instant < DayStart(DayOf(instant) + 1)
    ensures DayOf(DayStart(day)) == day
  {
  }

  /** Day starts are in the order of their days, so a task dated by day
      sorts among tasks dated by instant on one time line. */
  lemma DayStartOrder(d1: int, d2: int)
    ensures DayStart(d1) < DayStart(d2) <==> d1 < d2
  {
  }

  /** A day starts after every instant of an earlier day. */
  lemma LaterDayStartsLater(instant: int, day: int)
    requires DayOf(instant) < day
    ensures instant < DayStart(day)
  {
    DayOfBounds(instant, day);
    DayStartOrder(DayOf(instant) + 1, day);
  }

  /** The two paths the schema marks `required`. */
  datatype RequiredPath = UserIdPath | TitlePath

  /** A `required` string is missing when it is absent or empty. */
  function MissingPaths(fields: TaskFields): set<RequiredPath>
  {
    (if fields.userId.None? then {UserIdPath} else {})
    + (if !Truthy(fields.title) then {TitlePath} else {})
  }

  /** Every field present in `fields` holds the same value in `t`. */
  predicate Agrees(fields: TaskFields, t: Task)
  {
    && (fields.userId.Some? ==> t.userId == fields.userId.value)
    && (fields.title.Some? ==> t.title == fields.title.value)
    && (fields.isCompleted.Some? ==> t.isCompleted == fields.isCompleted.value)
    && (fields.isPriority.Some? ==> t.isPriority == fields.isPriority.value)
    && (fields.date.Some? ==> t.date == fields.date.value)
    && (fields.fontStyle.Some? ==> t.fontStyle == fields.fontStyle.value)
    && (fields.fontColor.Some? ==> t.fontColor == fields.fontColor.value)
    && (fields.isBold.Some? ==> t.isBold == fields.isBold.value)
    && (fields.isItalic.Some? ==> t.isItalic == fields.isItalic.value)
    && (fields.isUnderline.Some? ==> t.isUnderline == fields.isUnderline.value)
  }

  /** Every field absent from `fields` has the schema default in `t`
      (the default `date` is the creation instant). */
  predicate DefaultsElsewhere(fields: TaskFields, t: Task)
  {
    && (fields.isCompleted.None? ==> !t.isCompleted)
    && (fields.isPriority.None? ==> !t.isPriority)
    && (fields.date.None? ==> t.date == t.createdAt)
    && (fields.fontStyle.None? ==> t.fontStyle == DefaultFontStyle)
    && (fields.fontColor.None? ==> t.fontColor == DefaultFontColor)
    && (fields.isBold.None? ==> !t.isBold)
    && (fields.isItalic.None? ==> !t.isItalic)
    && (fields.isUnderline.None? ==> !t.isUnderline)
  }

  /** A new document built from `fields` under the identifier `id` at
      instant `now`: validation of the required paths, then defaults, then
      both timestamps set to `now`. A default fills only an absent path:
      a supplied empty string, such as an empty `font_style`, is stored. */
  function NewTask(fields: TaskFields, id: Id, now: int): (r: Result<Task, set<RequiredPath>>)
    ensures r.Err? <==> MissingPaths(fields) != {}
    ensures r.Err? ==> r.error == MissingPaths(fields)
    ensures r.Ok? ==> && r.value.id == id
                      && r.value.title != ""
                      && Agrees(fields, r.value)
                      && DefaultsElsewhere(fields, r.value)
                      && r.value.createdAt == now && r.value.updatedAt == now
  {
    var missing := MissingPaths(fields);
    if missing != {} then Err(missing)
    else
      Ok(Task(
        id,
        fields.userId.value,
        fields.title.value,
        fields.isCompleted.GetOr(false),
        fields.isPriority.GetOr(false),
        fields.date.GetOr(now),
        fields.fontStyle.GetOr(DefaultFontStyle),
        fields.fontColor.GetOr(DefaultFontColor),
        fields.isBold.GetOr(false),
        fields.isItalic.GetOr(false),
        fields.isUnderline.GetOr(false),
        now,
        now))
  }

  /** Creation succeeds exactly when an owner and a non-empty title are
      supplied, whatever else the fields hold. */
  lemma NewTaskSucceedsIff(fields: TaskFields, id: Id, now: int)
    ensures NewTask(fields, id, now).Ok? <==> fields.userId.Some? && fields.title.Some? && fields.title.value != ""
  {
  }

  /** An update merges `fields` into `t`: present fields replace, absent
      fields keep their values, the identifier and `createdAt` stay, and
      `updatedAt` becomes `now`. No required path is re-validated. */
  function Merge(t: Task, fields: TaskFields, now: int): (r: Task)
    ensures Agrees(fields, r)
    ensures KeepsAbsent(fields, t, r)
    ensures r.id == t.id && r.createdAt == t.createdAt && r.updatedAt == now
  {
    Task(
      t.id,
      fields.userId.GetOr(t.userId),
      fields.title.GetOr(t.title),
      fields.isCompleted.GetOr(t.isCompleted),
      fields.isPriority.GetOr(t.isPriority),
      fields.date.GetOr(t.date),
      fields.fontStyle.GetOr(t.fontStyle),
      fields.fontColor.GetOr(t.fontColor),
      fields.isBold.GetOr(t.isBold),
      fields.isItalic.GetOr(t.isItalic),
      fields.isUnderline.GetOr(t.isUnderline),
      t.createdAt,
      now)
  }

  /** Every field absent from `fields` holds in `r` the value it had in `t`. */
  predicate KeepsAbsent(fields: TaskFields, t: Task, r: Task)
  {
    && (fields.userId.None? ==> r.userId == t.userId)
    && (fields.title.None? ==> r.title == t.title)
    && (fields.isCompleted.None? ==> r.isCompleted == t.isCompleted)
    && (fields.isPriority.None? ==> r.isPriority == t.isPriority)
    && (fields.date.None? ==> r.date == t.date)
    && (fields.fontStyle.None? ==> r.fontStyle == t.fontStyle)
    && (fields.fontColor.None? ==> r.fontColor == t.fontColor)
    && (fields.isBold.None? ==> r.isBold == t.isBold)
    && (fields.isItalic.None? ==> r.isItalic == t.isItalic)
    && (fields.isUnderline.None? ==> r.isUnderline == t.isUnderline)
  }

  /** A body that only repeats stored values, the empty body included,
      changes nothing but `updatedAt`; so merging the same body twice is
      merging it once. */
  lemma MergeStoredValues(t: Task, fields: TaskFields, now: int, later: int)
    ensures Agrees(fields, t) ==> Merge(t, fields, now) == t.(updatedAt := now)
    ensures Merge(Merge(t, fields, now), fields, later) == Merge(t, fields, later)
  {
  }

  /** A merge bypasses validation: an update can empty the title that the
      schema required at creation. */
  lemma MergeCanEmptyTitle(t: Task, now: int)
    ensures Merge(t, NoFields.(title := Some("")), now).title == ""
  {
  }
}
