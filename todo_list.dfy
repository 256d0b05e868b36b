/** The task-list screen. The repository holds it twice: the copy under
    frontend/ also has the title edit (`updateTask`), the copy under src/
    does not; otherwise they share their logic. Its state is the list of
    tasks shown; each handler calls the server and, on success, replaces
    that list by a new one built from the old list and the server's
    answer. A failed call leaves the list as it was. */
module TodoList {
  import opened Common
  import opened TaskModel
  import opened TaskItem
  import TaskInput
  import TaskRoutes
  import AuthRoutes

  // ---------------------------------------------------------------------
  // Loading
  // ---------------------------------------------------------------------

  /** The list and the loading flag of the screen. */
  datatype Screen = Screen(tasks: seq<Task>, loading: bool)

  /** `loadTasks`: the server's list replaces the shown one on success;
      loading ends either way. */
  function AfterLoad(screen: Screen, response: Result<seq<Task>, string>): (r: Screen)
    ensures !r.loading
    ensures response.Ok? ==> r.tasks == response.value
    ensures response.Err? ==> r.tasks == screen.tasks
  {
    Screen(if response.Ok? then response.value else screen.tasks, false)
  }

  // ---------------------------------------------------------------------
  // The list reducers
  // ---------------------------------------------------------------------

  /** `addTask`: the task the server created goes in front of the list. */
  function AfterAdd(tasks: seq<Task>, response: Result<Task, string>): (r: seq<Task>)
    ensures response.Ok? ==> |r| == |tasks| + 1 && r[0] == response.value && r[1..] == tasks
    ensures response.Err? ==> r == tasks
  {
    if response.Ok? then [response.value] + tasks else tasks
  }

  /** The request body `addTask` sends: `{title, ...formatting}`. The
      form's day arrives as a "YYYY-MM-DD" string, which the store casts to
      the start of that day. */
  function AddBody(s: TaskInput.Submission): TaskFields
  {
    NoFields.(
      title := Some(s.title),
      date := Some(DayStart(s.date)),
      fontStyle := Some(s.fontStyle),
      fontColor := Some(s.fontColor),
      isBold := Some(s.isBold),
      isItalic := Some(s.isItalic),
      isUnderline := Some(s.isUnderline))
  }

  /** Every submit the form accepts is created by the server: the stored
      task carries the title as typed, the start of the chosen day and the chosen
      formatting (a font or color left empty takes the server default),
      and it starts neither completed nor starred. */
  lemma {:induction false} AcceptedSubmitIsCreated(store: map<Id, Task>, newId: Id, me: Id,
                                                   form: TaskInput.Submission, today: int, now: int)
    requires newId !in store
    requires TaskInput.CheckSubmit(form.date, today, form.title) == TaskInput.Accepted
    ensures var r := TaskRoutes.Post(store, newId, me, AddBody(form), now);
            && r.status == 201 && r.task.Some?
            && var t := r.task.value;
               && t.userId == me && t.title == form.title && t.date == DayStart(form.date)
               && (form.fontStyle != "" ==> t.fontStyle == form.fontStyle)
               && (form.fontColor != "" ==> t.fontColor == form.fontColor)
               && t.isBold == form.isBold && t.isItalic == form.isItalic
               && t.isUnderline == form.isUnderline
               && !t.isCompleted && !t.isPriority
  {
    assert Truthy(AddBody(form).title);
  }

  /** Among unstarred tasks, one added from the form for a later day than
      the day of another task's date is listed first, even when the other
      took the server's default date, the instant it was created: both
      dates lie on one time line. */
  lemma {:induction false} LaterFormDayListedFirst(store: map<Id, Task>, newId: Id, me: Id,
                                                   form: TaskInput.Submission, today: int, now: int,
                                                   other: Task)
    requires newId !in store
    requires TaskInput.CheckSubmit(form.date, today, form.title) == TaskInput.Accepted
    requires !other.isPriority && DayOf(other.date) < form.date
    ensures var r := TaskRoutes.Post(store, newId, me, AddBody(form), now);
            && r.task.Some?
            && TaskRoutes.ListedBefore(r.task.value, other)
            && !TaskRoutes.ListedBefore(other, r.task.value)
  {
    AcceptedSubmitIsCreated(store, newId, me, form, today, now);
    LaterDayStartsLater(other.date, form.date);
  }

  /** `tasks.filter(task => task._id !== id)`. */
  function WithoutId(tasks: seq<Task>, id: Id): (r: seq<Task>)
    ensures |r| <= |tasks|
    ensures forall t :: t in r <==> t in tasks && t.id != id
  {
    if tasks == [] then []
    else
      var rest := WithoutId(tasks[1..], id);
      assert forall t :: t in tasks <==> t == tasks[0] || t in tasks[1..];
      if tasks[0].id == id then rest else [tasks[0]] + rest
  }

  /** Filtering distributes over concatenation: the kept tasks stay in
      their original order. */
  lemma {:induction false} WithoutIdKeepsOrder(a: seq<Task>, b: seq<Task>, id: Id)
    ensures WithoutId(a + b, id) == WithoutId(a, id) + WithoutId(b, id)
  {
    if a == [] {
      assert a + b == b;
    } else {
      assert (a + b)[0] == a[0] && (a + b)[1..] == a[1..] + b;
      WithoutIdKeepsOrder(a[1..], b, id);
    }
  }

  /** A list with no task of that identifier is left as it is. */
  lemma {:induction false} WithoutIdAbsent(tasks: seq<Task>, id: Id)
    requires forall t :: t in tasks ==> t.id != id
    ensures WithoutId(tasks, id) == tasks
  {
    if tasks != [] {
      assert forall t :: t in tasks[1..] ==> t in tasks;
      WithoutIdAbsent(tasks[1..], id);
    }
  }

  /** Deleting twice is deleting once. */
  lemma WithoutIdIdempotent(tasks: seq<Task>, id: Id)
    ensures WithoutId(WithoutId(tasks, id), id) == WithoutId(tasks, id)
  {
    WithoutIdAbsent(WithoutId(tasks, id), id);
  }

  /** `deleteTask`: on success every task with that identifier goes. */
  function AfterDelete(tasks: seq<Task>, id: Id, response: Result<(), string>): (r: seq<Task>)
    ensures response.Ok? ==> r == WithoutId(tasks, id)
    ensures response.Err? ==> r == tasks
  {
    if response.Ok? then WithoutId(tasks, id) else tasks
  }

  /** `tasks.map(task => task._id === id ? updated : task)`. */
  function ReplaceById(tasks: seq<Task>, id: Id, updated: Task): (r: seq<Task>)
    ensures |r| == |tasks|
    ensures forall i :: 0 <= i < |tasks| && tasks[i].id != id ==> r[i] == tasks[i]
    ensures forall i :: 0 <= i < |tasks| && tasks[i].id == id ==> r[i] == updated
  {
    seq(|tasks|, i requires 0 <= i < |tasks| => if tasks[i].id == id then updated else tasks[i])
  }

  /** The answer of an update replaces the task it came back for; on
      failure the list stays. Shared by the two toggles and the title edit. */
  function AfterUpdate(tasks: seq<Task>, id: Id, response: Result<Task, string>): (r: seq<Task>)
    ensures response.Ok? ==> r == ReplaceById(tasks, id, response.value)
    ensures response.Err? ==> r == tasks
  {
    if response.Ok? then ReplaceById(tasks, id, response.value) else tasks
  }

  /** Replacing by identifier never changes which identifiers are listed
      nor where: the list of identifiers is the same before and after. */
  lemma ReplaceKeepsIds(tasks: seq<Task>, id: Id, updated: Task)
    requires updated.id == id
    ensures forall i :: 0 <= i < |tasks| ==> ReplaceById(tasks, id, updated)[i].id == tasks[i].id
  {
  }

  // ---------------------------------------------------------------------
  // The update requests
  // ---------------------------------------------------------------------

  /** `togglePriority(id, isPriority)` sends `{is_priority: !isPriority}`. */
  function TogglePriorityBody(isPriority: bool): TaskFields
  {
    NoFields.(isPriority := Some(!isPriority))
  }

  /** `toggleComplete(id, isCompleted)` sends `{is_completed: !isCompleted}`. */
  function ToggleCompleteBody(isCompleted: bool): TaskFields
  {
    NoFields.(isCompleted := Some(!isCompleted))
  }

  /** `updateTask(id, newTitle)` sends `{title: newTitle}`. */
  function UpdateTitleBody(newTitle: string): TaskFields
  {
    NoFields.(title := Some(newTitle))
  }

  /** Clicking a task's checkbox, as the owner, stores that task with its
      completion flipped and every other field as it was. */
  lemma CheckboxFlipsCompletion(store: map<Id, Task>, owner: Id, t: Task, now: int)
    requires t.id in store && store[t.id] == t && t.userId == owner
    ensures var (id, flag) := CompleteArgs(t);
            var r := TaskRoutes.Put(store, owner, id, ToggleCompleteBody(flag), now);
            r.status == 200 && r.store[id] == t.(isCompleted := !t.isCompleted, updatedAt := now)
  {
  }

  /** Clicking a task's star, as the owner, stores that task with its
      priority flipped and every other field as it was. */
  lemma StarFlipsPriority(store: map<Id, Task>, owner: Id, t: Task, now: int)
    requires t.id in store && store[t.id] == t && t.userId == owner
    ensures var (id, flag) := PriorityArgs(t);
            var r := TaskRoutes.Put(store, owner, id, TogglePriorityBody(flag), now);
            r.status == 200 && r.store[id] == t.(isPriority := !t.isPriority, updatedAt := now)
  {
  }

  /** Two clicks on the star give back the task it started from, up to
      `updatedAt`. */
  lemma {:induction false} StarTwiceRestores(store: map<Id, Task>, owner: Id, t: Task, now1: int, now2: int)
    requires t.id in store && store[t.id] == t && t.userId == owner
    ensures var r1 := TaskRoutes.Put(store, owner, t.id, TogglePriorityBody(t.isPriority), now1);
            var t1 := r1.store[t.id];
            var r2 := TaskRoutes.Put(r1.store, owner, t.id, TogglePriorityBody(t1.isPriority), now2);
            r2.store[t.id] == t.(updatedAt := now2)
  {
    StarFlipsPriority(store, owner, t, now1);
    var r1 := TaskRoutes.Put(store, owner, t.id, TogglePriorityBody(t.isPriority), now1);
    StarFlipsPriority(r1.store, owner, r1.store[t.id], now2);
  }

  /** The owner's title edit stores exactly the new title, even an empty
      one (the update is not validated), and changes nothing else but
      `updatedAt`. */
  lemma TitleEditStoresTitle(store: map<Id, Task>, owner: Id, t: Task, newTitle: string, now: int)
    requires t.id in store && store[t.id] == t && t.userId == owner
    ensures var r := TaskRoutes.Put(store, owner, t.id, UpdateTitleBody(newTitle), now);
            r.status == 200 && r.store[t.id] == t.(title := newTitle, updatedAt := now)
  {
  }

  /** The bin, clicked by the owner: the server removes exactly that task,
      and the list shown drops it and keeps every other task. */
  lemma BinDeletesTask(store: map<Id, Task>, owner: Id, t: Task, tasks: seq<Task>)
    requires t.id in store && store[t.id] == t && t.userId == owner
    ensures var r := TaskRoutes.Delete(store, owner, DeleteArgs(t));
            && r.status == 200 && r.store == store - {t.id}
            && forall u :: u in AfterDelete(tasks, DeleteArgs(t), Ok(())) <==> u in tasks && u.id != t.id
  {
  }

  // ---------------------------------------------------------------------
  // Theme
  // ---------------------------------------------------------------------

  /** `user?.theme_mode === 'dark'`. */
  predicate IsDark(user: Option<AuthRoutes.PublicUser>)
  {
    user.Some? && user.value.themeMode == "dark"
  }

  /** The theme `toggleTheme` requests: dark after light, light otherwise
      (also when no user is known). */
  function NextTheme(user: Option<AuthRoutes.PublicUser>): (m: string)
    ensures user.Some? && user.value.themeMode == "light" ==> m == "dark"
    ensures !(user.Some? && user.value.themeMode == "light") ==> m == "light"
  {
    if user.Some? && user.value.themeMode == "light" then "dark" else "light"
  }

  /** On the two known themes the toggle is an involution. */
  lemma NextThemeTwice(u: AuthRoutes.PublicUser)
    requires u.themeMode == "light" || u.themeMode == "dark"
    ensures NextTheme(Some(u.(themeMode := NextTheme(Some(u))))) == u.themeMode
  {
  }

  /** The user shown after `toggleTheme`: the server's answer on success. */
  function AfterTheme(user: Option<AuthRoutes.PublicUser>, response: Result<AuthRoutes.PublicUser, string>): (r: Option<AuthRoutes.PublicUser>)
    ensures response.Ok? ==> r == Some(response.value)
    ensures response.Err? ==> r == user
  {
    if response.Ok? then Some(response.value) else user
  }

  /** Toggling the theme against the server flips between light and dark
      and changes only the caller's account. */
  lemma {:induction false} ToggleThemeFlips(users: map<Id, AuthRoutes.User>, me: Id)
    requires me in users
    requires users[me].themeMode == "light" || users[me].themeMode == "dark"
    ensures var before := Some(AuthRoutes.PublicView(users[me]));
            var h := AuthRoutes.PutTheme(users, me, NextTheme(before));
            && h.reply.Success?
            && IsDark(AfterTheme(before, Ok(h.reply.user))) == !IsDark(before)
            && forall k :: k in users && k != me ==> h.users[k] == users[k]
  {
  }

  // ---------------------------------------------------------------------
  // Footer counters
  // ---------------------------------------------------------------------

  /** The number of tasks of the list satisfying `p`. */
  function CountWhere(tasks: seq<Task>, p: Task -> bool): (n: nat)
    ensures n <= |tasks|
  {
    if tasks == [] then 0
    else (if p(tasks[0]) then 1 else 0) + CountWhere(tasks[1..], p)
  }

  function Completed(t: Task): bool { t.isCompleted }
  function Priority(t: Task): bool { t.isPriority }

  /** The footer: total, completed and priority counts, and the noun. */
  datatype Footer = Footer(total: nat, noun: string, completed: nat, priority: nat)

  function FooterOf(tasks: seq<Task>): (f: Footer)
    ensures f.total == |tasks|
    ensures f.completed == CountWhere(tasks, Completed) && f.priority == CountWhere(tasks, Priority)
    ensures f.completed <= f.total && f.priority <= f.total
    ensures f.noun == (if |tasks| == 1 then "task" else "tasks")
  {
    Footer(|tasks|, if |tasks| == 1 then "task" else "tasks", CountWhere(tasks, Completed), CountWhere(tasks, Priority))
  }

  /** A one-task list counts 1 exactly when the task satisfies `p`. */
  lemma CountOne(t: Task, p: Task -> bool)
    ensures CountWhere([t], p) == if p(t) then 1 else 0
  {
    assert [t][1..] == [];
  }

  /** Counting distributes over concatenation; with `CountOne` this fixes
      the count of every list as the number of its tasks satisfying `p`. */
  lemma {:induction false} CountAppend(a: seq<Task>, b: seq<Task>, p: Task -> bool)
    ensures CountWhere(a + b, p) == CountWhere(a, p) + CountWhere(b, p)
  {
    if a == [] {
      assert a + b == b;
    } else {
      assert (a + b)[0] == a[0] && (a + b)[1..] == a[1..] + b;
      CountAppend(a[1..], b, p);
    }
  }

  /** The completed count and the count of open tasks make up the total. */
  lemma {:induction false} CountSplits(tasks: seq<Task>, p: Task -> bool)
    ensures CountWhere(tasks, p) + CountWhere(tasks, t => !p(t)) == |tasks|
  {
    if tasks != [] {
      CountSplits(tasks[1..], p);
    }
  }

  // ---------------------------------------------------------------------
  // PDF export
  // ---------------------------------------------------------------------

  /** One `doc.text` call: page (0 is the first), vertical position, font
      size and text. */
  datatype PdfLine = PdfLine(page: nat, y: int, fontSize: nat, text: string)

  const Heading := PdfLine(0, 20, 20, "My To Do List")
  const StarMark := "[★] "
  const DoneMark := "[✓] "
  const OpenMark := "[ ] "

  /** The priority mark, then the completion mark, then the title. */
  function LineText(t: Task): string
  {
    (if t.isPriority then StarMark else "") + (if t.isCompleted then DoneMark else OpenMark) + t.title
  }

  /** Reads a line back: the priority flag, the completion flag and the
      title, or None if the line does not have the marks. */
  function ParseLine(s: string): Option<(bool, bool, string)>
  {
    var isPriority := |s| >= 4 && s[..4] == StarMark;
    var rest := if isPriority then s[4..] else s;
    if |rest| >= 4 && rest[..4] == DoneMark then Some((isPriority, true, rest[4..]))
    else if |rest| >= 4 && rest[..4] == OpenMark then Some((isPriority, false, rest[4..]))
    else None
  }

  /** A line determines the task's two flags and its title. */
  lemma LineTextParses(t: Task)
    ensures ParseLine(LineText(t)) == Some((t.isPriority, t.isCompleted, t.title))
  {
    var s := LineText(t);
    var mark := if t.isCompleted then DoneMark else OpenMark;
    if t.isPriority {
      assert s == StarMark + (mark + t.title);
      assert s[..4] == StarMark && s[4..] == mark + t.title;
    } else {
      assert s == mark + t.title;
      assert s[..4] == mark;
    }
    assert (mark + t.title)[..4] == mark && (mark + t.title)[4..] == t.title;
  }

  /** The first page holds 24 task lines below the heading (y from 40 to
      270); each later page holds 26 (y from 20 to 270). */
  const FirstPageLines := 24
  const PageLines := 26

  /** The page of the `i`-th task's line. */
  function PageOf(i: nat): nat
  {
    if i < FirstPageLines then 0 else 1 + (i - FirstPageLines) / PageLines
  }

  /** The vertical position of the `i`-th task's line. */
  function LineY(i: nat): int
  {
    if i < FirstPageLines then 40 + 10 * i else 20 + 10 * ((i - FirstPageLines) % PageLines)
  }

  /** Every task line lies within the printable band of its page. */
  lemma LineYInBounds(i: nat)
    ensures 20 <= LineY(i) <= 270
  {
  }

  /** From one task line to the next: the next line goes 10 lower on the
      same page unless that would pass 270, in which case it starts a new
      page at 20. */
  lemma {:induction false} NextLine(i: nat)
    ensures LineY(i) + 10 > 270 ==> PageOf(i + 1) == PageOf(i) + 1 && LineY(i + 1) == 20
    ensures LineY(i) + 10 <= 270 ==> PageOf(i + 1) == PageOf(i) && LineY(i + 1) == LineY(i) + 10
  {
    if i >= FirstPageLines {
      var j := i - FirstPageLines;
      var q, r := j / PageLines, j % PageLines;
      assert j == PageLines * q + r;
      if r == PageLines - 1 {
        assert j + 1 == PageLines * (q + 1) + 0;
      } else {
        assert j + 1 == PageLines * q + (r + 1);
      }
    }
  }

  /** `downloadPDF`: the heading, then one line per task in list order,
      paging whenever the running position passes 270. */
  method DownloadPdf(tasks: seq<Task>) returns (lines: seq<PdfLine>)
    ensures |lines| == |tasks| + 1
    ensures lines[0] == Heading
    ensures forall i :: 0 <= i < |tasks| ==> lines[i + 1] == PdfLine(PageOf(i), LineY(i), 12, LineText(tasks[i]))
  {
    lines := [Heading];
    var page: nat := 0;
    var y := 40;
    var i := 0;
    while i < |tasks|
      invariant 0 <= i <= |tasks|
      invariant |lines| == i + 1 && lines[0] == Heading
      invariant forall k :: 0 <= k < i ==> lines[k + 1] == PdfLine(PageOf(k), LineY(k), 12, LineText(tasks[k]))
      invariant i == 0 ==> page == 0 && y == 40
      invariant i > 0 ==> page == PageOf(i - 1) && y == LineY(i - 1) + 10
    {
      if i > 0 {
        NextLine(i - 1);
      }
      if y > 270 {
        page := page + 1;
        y := 20;
      }
      lines := lines + [PdfLine(page, y, 12, LineText(tasks[i]))];
      y := y + 10;
      i := i + 1;
    }
  }
}
