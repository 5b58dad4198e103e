/** The create/edit dialog for one task. The mode is fixed by the `task`
    prop: with a task the dialog edits it (PATCH), without one it creates a
    task (POST). The pure functions give the effect of each handler on a
    snapshot of the dialog's state; the class `TaskFormDialog` performs the
    handlers field by field and is proved to have exactly those effects. */
module TaskFormDialog {
  import opened Types
  import opened Browser

  const TasksPath: string := "/tasks/"

  /** The dialog's `useState` fields, plus the number of times a saved task
      asked the task list to refresh. The component destructures
      `triggerTaskUpdate` from `useAuth()`, but the auth context's type and
      provider value do not supply it; the model therefore records each call
      as an abstract "update requested" count. */
  datatype FormState = FormState(
    open: bool,
    title: string,
    description: string,
    status: TaskStatus,
    dueDate: Option<string>,
    isLoading: bool,
    updateRequests: nat)

  /** The state on first render: closed, empty, PENDING, no date, not loading. */
  const Initial: FormState := FormState(false, "", "", Pending, None, false, 0)

  /** The fields `handleOpenChange(false)` restores. */
  predicate Blank(s: FormState) {
    s.title == "" && s.description == "" && s.status == Pending && s.dueDate == None
  }

  /** `r` and `s` hold the same input fields. */
  predicate SameFields(r: FormState, s: FormState) {
    r.title == s.title && r.description == s.description && r.status == s.status && r.dueDate == s.dueDate
  }

  /** `task.description || ""`: null (and the empty string) read as "". */
  function DescriptionText(d: Option<string>): (r: string)
    ensures d.None? ==> r == ""
    ensures d.Some? ==> r == d.value
  {
    d.GetOr("")
  }

  /** `task.due_date ? new Date(task.due_date) : undefined`: null and the
      empty string both mean no date. */
  function DateOf(d: Option<string>): (r: Option<string>)
    ensures r.None? <==> (d.None? || d.value == "")
    ensures r.Some? ==> r == d
  {
    if d.Some? && d.value != "" then d else None
  }

  /** The form's fields hold a copy of `task`. */
  predicate FieldsFrom(s: FormState, task: Task) {
    s.title == task.title && s.description == DescriptionText(task.description) &&
    s.status == task.status && s.dueDate == DateOf(task.dueDate)
  }

  /** `handleOpenChange(isOpen)`. */
  function OpenChanged(s: FormState, isOpen: bool): (r: FormState)
    ensures r.open == isOpen
    ensures !isOpen ==> Blank(r)
    ensures isOpen ==> SameFields(r, s)
    ensures r.isLoading == s.isLoading && r.updateRequests == s.updateRequests
  {
    var cleared := if isOpen then s else s.(title := "", description := "", status := Pending, dueDate := None);
    cleared.(open := isOpen)
  }

  /** The fill effect: in edit mode, an open dialog copies the task. */
  function Filled(s: FormState, task: Option<Task>): (r: FormState)
    ensures task.Some? && s.open ==> FieldsFrom(r, task.value)
    ensures task.None? || !s.open ==> r == s
    ensures r.open == s.open && r.isLoading == s.isLoading && r.updateRequests == s.updateRequests
  {
    if task.Some? && s.open then
      s.(title := task.value.title,
         description := DescriptionText(task.value.description),
         status := task.value.status,
         dueDate := DateOf(task.value.dueDate))
    else
      s
  }

  /** React re-runs the effect (dependencies `[task, open]`, with `task`
      fixed) after a render in which `open` changed. */
  function Rendered(prev: FormState, next: FormState, task: Option<Task>): (r: FormState)
    ensures r.open == next.open && r.isLoading == next.isLoading && r.updateRequests == next.updateRequests
    // the effect re-runs on a change of `open`, and fills only an open edit dialog
    ensures next.open != prev.open && next.open && task.Some? ==> FieldsFrom(r, task.value)
    ensures next.open == prev.open || !next.open || task.None? ==> r == next
  {
    if next.open != prev.open then Filled(next, task) else next
  }

  /** The dialog's `onOpenChange`, together with the effect it re-triggers. */
  function AfterOpenChange(s: FormState, task: Option<Task>, isOpen: bool): (r: FormState)
    ensures r.open == isOpen
    ensures r.isLoading == s.isLoading && r.updateRequests == s.updateRequests
    // closing always resets the fields
    ensures !isOpen ==> Blank(r)
    // opening a closed edit dialog shows the task
    ensures isOpen && !s.open && task.Some? ==> FieldsFrom(r, task.value)
    // opening in create mode, or re-opening an open dialog, keeps the fields
    ensures isOpen && (s.open || task.None?) ==> SameFields(r, s)
  {
    Rendered(s, OpenChanged(s, isOpen), task)
  }

  /** The payload literal of `handleSubmit`. Dates are kept as their
      "yyyy-MM-dd" text, so formatting is the identity here. */
  function Payload(s: FormState): (p: TaskPayload)
    ensures p.title == s.title && p.description == s.description && p.status == s.status
    ensures p.dueDate == s.dueDate
  {
    TaskPayload(s.title, s.description, s.status, s.dueDate)
  }

  function EditPath(id: int): string {
    TasksPath + Decimal(id) + "/"
  }

  /** Where a save goes: PATCH "/tasks/<id>/" in edit mode, POST "/tasks/" otherwise. */
  function Target(task: Option<Task>): (t: (Method, string))
    ensures t.0 == Patch <==> task.Some?
    ensures t.0 == Post <==> task.None?
    ensures task.Some? ==> t.1 == "/tasks/" + Decimal(task.value.id) + "/"
    ensures task.None? ==> t.1 == "/tasks/"
  {
    match task
    case Some(t) => (Patch, EditPath(t.id))
    case None => (Post, TasksPath)
  }

  /** An edit never addresses the collection path. */
  lemma EditPathNotCollection(id: int)
    ensures EditPath(id) != TasksPath
  {
  }

  /** Saving one task never addresses another one. */
  lemma EditPathsDistinct(a: int, b: int)
    requires a != b
    ensures EditPath(a) != EditPath(b)
  {
    if EditPath(a) == EditPath(b) {
      var n := |TasksPath|;
      assert Decimal(a) == EditPath(a)[n..|EditPath(a)| - 1];
      assert Decimal(b) == EditPath(b)[n..|EditPath(b)| - 1];
      DecimalInjective(a, b);
    }
  }

  /** `handleSubmit` up to the await: loading is on. */
  function SubmitStarted(s: FormState): (r: FormState)
    ensures r.isLoading
    ensures SameFields(r, s) && r.open == s.open && r.updateRequests == s.updateRequests
  {
    s.(isLoading := true)
  }

  /** `handleSubmit` after the request settles; `saved` tells whether it resolved. */
  function SubmitFinished(s: FormState, saved: bool): (r: FormState)
    ensures !r.isLoading
    // a save closes the dialog and requests one update
    ensures saved ==> !r.open && r.updateRequests == s.updateRequests + 1
    // a failure leaves the dialog as it was
    ensures !saved ==> r.open == s.open && r.updateRequests == s.updateRequests
    // the bare `setOpen(false)` bypasses handleOpenChange: no field is reset
    ensures SameFields(r, s)
  {
    var closed := if saved then s.(open := false, updateRequests := s.updateRequests + 1) else s;
    closed.(isLoading := false)
  }

  /** The form lives inside `<DialogContent>`, which is mounted only while
      the dialog is open, and the title `<Input>` is `required`: the browser
      lets a submit event reach `handleSubmit` only from an open dialog with
      a non-empty title. */
  predicate Submittable(s: FormState) {
    s.open && s.title != ""
  }

  /** What a user can do to the dialog. The inputs are part of the form, so
      typing, selecting and picking reach the dialog only while it is open. */
  datatype FormEvent =
    | OpenChange(isOpen: bool)
    | TypeTitle(title: string)
    | TypeDescription(description: string)
    | SelectStatus(status: TaskStatus)
    | PickDate(date: Option<string>)
    | Submit(saved: bool)

  function Apply(s: FormState, task: Option<Task>, e: FormEvent): FormState {
    match e
    case OpenChange(isOpen) => AfterOpenChange(s, task, isOpen)
    case TypeTitle(t) => if s.open then s.(title := t) else s
    case TypeDescription(d) => if s.open then s.(description := d) else s
    case SelectStatus(st) => if s.open then s.(status := st) else s
    case PickDate(d) => if s.open then s.(dueDate := d) else s
    case Submit(saved) =>
      if Submittable(s) then Rendered(s, SubmitFinished(SubmitStarted(s), saved), task) else s
  }

  function Run(s: FormState, task: Option<Task>, es: seq<FormEvent>): FormState
    decreases |es|
  {
    if es == [] then s else Run(Apply(s, task, es[0]), task, es[1..])
  }

  /** The number of successful saves along a sequence of interactions: the
      `Submit(true)` events that find the dialog open with a non-empty title. */
  function Saves(s: FormState, task: Option<Task>, es: seq<FormEvent>): nat
    decreases |es|
  {
    if es == [] then 0
    else (if es[0] == Submit(true) && Submittable(s) then 1 else 0) + Saves(Apply(s, task, es[0]), task, es[1..])
  }

  /** A submit with an empty title is blocked before `handleSubmit`: nothing changes. */
  lemma BlankTitleSubmitIgnored(s: FormState, task: Option<Task>, saved: bool)
    requires s.title == ""
    ensures Apply(s, task, Submit(saved)) == s
  {
  }

  /** A closed dialog has no form mounted: no event changes it except opening. */
  lemma ClosedDialogIgnoresInput(s: FormState, task: Option<Task>, e: FormEvent)
    requires !s.open && !e.OpenChange?
    ensures Apply(s, task, e) == s
  {
  }

  /** One step's effect on the counter and on loading. */
  lemma ApplyCounts(s: FormState, task: Option<Task>, e: FormEvent)
    ensures Apply(s, task, e).updateRequests ==
            s.updateRequests + (if e == Submit(true) && Submittable(s) then 1 else 0)
    ensures e.Submit? && Submittable(s) ==> !Apply(s, task, e).isLoading
    ensures !(e.Submit? && Submittable(s)) ==> Apply(s, task, e).isLoading == s.isLoading
  {
  }

  /** Over any sequence of interactions, updates are requested exactly once
      per successful save. */
  lemma {:induction false} RunCountsSaves(s: FormState, task: Option<Task>, es: seq<FormEvent>)
    ensures Run(s, task, es).updateRequests == s.updateRequests + Saves(s, task, es)
    decreases |es|
  {
    if es != [] {
      ApplyCounts(s, task, es[0]);
      RunCountsSaves(Apply(s, task, es[0]), task, es[1..]);
    }
  }

  /** Once every submit has settled, the dialog is not loading. */
  lemma {:induction false} RunSettles(s: FormState, task: Option<Task>, es: seq<FormEvent>)
    requires !s.isLoading
    ensures !Run(s, task, es).isLoading
    decreases |es|
  {
    if es != [] {
      ApplyCounts(s, task, es[0]);
      RunSettles(Apply(s, task, es[0]), task, es[1..]);
    }
  }

  /** In create mode, a successful save followed by re-opening shows the
      previous input again: the dialog closed without a reset. (With an
      empty title the submit is blocked and the dialog simply stays open.) */
  lemma CreateReopenKeepsInput(s: FormState)
    requires s.open
    ensures var r := Run(s, None, [Submit(true), OpenChange(true)]);
            r.open && SameFields(r, s) &&
            r.updateRequests == s.updateRequests + (if Submittable(s) then 1 else 0)
  {
  }

  /** In edit mode, re-opening after a save shows the task prop again,
      replacing what was typed; a blocked submit leaves the input alone. */
  lemma EditReopenRefills(s: FormState, task: Task)
    requires s.open
    ensures var r := Run(s, Some(task), [Submit(true), OpenChange(true)]);
            r.open &&
            (Submittable(s) ==> FieldsFrom(r, task)) &&
            (!Submittable(s) ==> SameFields(r, s))
  {
  }

  /** After opening a closed edit dialog, the payload a save would send is
      the task as it came, except that a null description goes out as "" and an empty
      due date as null. The due date comes back unchanged only under the
      identity date abstraction of this module, which holds at UTC offsets
      of zero or more; module DueDates shows the day lost west of UTC. */
  lemma UnchangedEditResendsTask(s: FormState, task: Task)
    requires !s.open
    ensures Payload(AfterOpenChange(s, Some(task), true)) ==
            TaskPayload(task.title, DescriptionText(task.description), task.status, DateOf(task.dueDate))
  {
  }

  /** Cancelling (closing through onOpenChange) always leaves a blank form. */
  lemma CancelResets(s: FormState, task: Option<Task>)
    ensures Blank(Apply(s, task, OpenChange(false)))
  {
  }

  /** The `TaskFormDialog` component: its props and its state variables. */
  class TaskFormDialog {
    const task: Option<Task>
    const client: ApiClient
    var open: bool
    var title: string
    var description: string
    var status: TaskStatus
    var dueDate: Option<string>
    var isLoading: bool
    var updateRequests: nat

    function State(): FormState
      reads this
    {
      FormState(open, title, description, status, dueDate, isLoading, updateRequests)
    }

    constructor (task: Option<Task>, client: ApiClient)
      ensures this.task == task && this.client == client
      ensures State() == Initial
    {
      this.task := task;
      this.client := client;
      open := false;
      title := "";
      description := "";
      status := Pending;
      dueDate := None;
      isLoading := false;
      updateRequests := 0;
    }

    method HandleOpenChange(isOpen: bool)
      modifies this
      ensures State() == OpenChanged(old(State()), isOpen)
    {
      if !isOpen {
        title := "";
        description := "";
        status := Pending;
        dueDate := None;
      }
      open := isOpen;
    }

    /** The fill-on-open effect. */
    method FillEffect()
      modifies this
      ensures State() == Filled(old(State()), task)
    {
      if task.Some? && open {
        title := task.value.title;
        description := DescriptionText(task.value.description);
        status := task.value.status;
        dueDate := DateOf(task.value.dueDate);
      }
    }

    /** The dialog's `onOpenChange`, followed by the effect when `open` changed. */
    method OnOpenChange(isOpen: bool)
      modifies this
      ensures State() == AfterOpenChange(old(State()), task, isOpen)
    {
      var wasOpen := open;
      HandleOpenChange(isOpen);
      if open != wasOpen {
        FillEffect();
      }
    }

    /** The inputs' change handlers. */
    method SetTitle(t: string)
      modifies this
      ensures State() == old(State()).(title := t)
    {
      title := t;
    }

    method SetDescription(d: string)
      modifies this
      ensures State() == old(State()).(description := d)
    {
      description := d;
    }

    method SetStatus(st: TaskStatus)
      modifies this
      ensures State() == old(State()).(status := st)
    {
      status := st;
    }

    method SetDueDate(d: Option<string>)
      modifies this
      ensures State() == old(State()).(dueDate := d)
    {
      dueDate := d;
    }

    /** `handleSubmit` up to the await: loading on, one request sent. */
    method BeginSubmit()
      modifies this, client
      ensures State() == SubmitStarted(old(State()))
      ensures client.sent == old(client.sent) + [ApiCall(Target(task).0, Target(task).1, TaskBody(Payload(old(State()))), old(client.authorization))]
      ensures client.authorization == old(client.authorization)
    {
      isLoading := true;
      var payload := TaskPayload(title, description, status, dueDate);
      if task.Some? {
        client.Send(Patch, TasksPath + Decimal(task.value.id) + "/", TaskBody(payload));
      } else {
        client.Send(Post, TasksPath, TaskBody(payload));
      }
    }

    /** `handleSubmit` after the await: close and request an update on
        success, log on failure, and turn loading off either way. The
        effect that the close re-triggers does nothing on a closed dialog. */
    method CompleteSubmit(response: Response<Task>)
      modifies this
      ensures State() == SubmitFinished(old(State()), response.Success?)
    {
      if response.Success? {
        open := false;
        updateRequests := updateRequests + 1;
      }
      isLoading := false;
    }

    /** The form's submit event, which only an open dialog's form can raise;
        browser validation of the required title input runs first and stops
        an empty title before `handleSubmit`. */
    method SubmitForm(response: Response<Task>)
      modifies this, client
      ensures State() == Apply(old(State()), task, Submit(response.Success?))
      ensures !old(open) || old(title) == "" ==> client.sent == old(client.sent)
      ensures old(open) && old(title) != "" ==>
                client.sent == old(client.sent) + [ApiCall(Target(task).0, Target(task).1, TaskBody(Payload(old(State()))), old(client.authorization))]
      ensures client.authorization == old(client.authorization)
    {
      if open && title != "" {
        HandleSubmit(response);
      }
    }

    method HandleSubmit(response: Response<Task>)
      modifies this, client
      ensures State() == Rendered(old(State()), SubmitFinished(SubmitStarted(old(State())), response.Success?), task)
      ensures client.sent == old(client.sent) + [ApiCall(Target(task).0, Target(task).1, TaskBody(Payload(old(State()))), old(client.authorization))]
      ensures client.authorization == old(client.authorization)
    {
      BeginSubmit();
      CompleteSubmit(response);
    }
  }
}
