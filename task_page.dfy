/** The add/edit task page (src/pages/Task.jsx): a form over a task's
    description and status that creates a task when the route has no task
    id and updates that task when it has one. */
module TaskPage {
  import opened Http
  import opened Forms
  import Tasks

  datatype Mode = Add | Update

  /** `taskId === undefined ? "add" : "update"`. */
  function ModeOf(taskId: Option<string>): (m: Mode)
    ensures m == Add <==> taskId == None
  {
    if taskId.None? then Add else Update
  }

  /** The form object `{description, status}`. */
  function TaskForm(description: string, status: string): (f: Fields)
    ensures f.Keys == {"description", "status"}
    ensures f["description"] == description && f["status"] == status
  {
    map["description" := description, "status" := status]
  }

  /** The state the form starts in. */
  function InitialForm(): (f: Fields)
    ensures f.Keys == {"description", "status"}
    ensures f["description"] == "" && f["status"] == "todo"
  {
    TaskForm("", "todo")
  }

  /** A form that still carries the two fields the page submits. */
  predicate HasTaskFields(form: Fields) {
    "description" in form && "status" in form
  }

  /** The config `handleSubmit` builds: `POST /tasks` in add mode and
      `PUT /tasks/{taskId}` in update mode, so the URL addresses exactly the
      task being edited or none; the body carries the description and
      status and nothing else the form may hold; the header carries the
      session token. */
  function SubmitRequest(taskId: Option<string>, form: Fields, token: string): (r: Request)
    requires HasTaskFields(form)
    ensures r.url == if taskId.None? then TasksUrl else TaskUrl(taskId.value)
    ensures TaskIdOf(r.url) == taskId
    ensures r.verb == (if ModeOf(taskId) == Add then Post else Put)
    ensures r.body == Json(TaskForm(form["description"], form["status"]))
    ensures r.authorization == Some(token) && r.successToast == None
  {
    TaskUrlRoundTrip(if taskId.Some? then taskId.value else "");
    var mode := ModeOf(taskId);
    Request(
      if mode == Add then TasksUrl else TaskUrl(taskId.value),
      if mode == Add then Post else Put,
      Json(TaskForm(form["description"], form["status"])),
      Some(token),
      None)
  }

  /** The config of the update-mode load: `GET /tasks/{taskId}`, no toast. */
  function LoadRequest(taskId: string, token: string): (r: Request)
    ensures TaskIdOf(r.url) == Some(taskId) && r.verb == Get && r.body == NoBody
    ensures r.authorization == Some(token) && r.successToast == Some(false)
  {
    TaskUrlRoundTrip(taskId);
    Request(TaskUrl(taskId), Get, NoBody, Some(token), Some(false))
  }

  /** What the `.then` of an outstanding request does: store the loaded
      task, or navigate home after a create or update. */
  datatype OnSuccess = StoreTask | GoHome

  datatype Pending = Pending(request: Request, onSuccess: OnSuccess)

  class TaskPageView {
    const taskId: Option<string>
    const mode: Mode
    const validate: Validator
    /** The task as loaded (`null` until an update-mode load succeeds). */
    var task: Option<Tasks.Task>
    var formData: Fields
    var formErrors: Fields
    /** Requests issued and not yet settled, in issue order. */
    var pending: seq<Pending>
    /** Paths navigated to, in order. */
    var navigations: seq<string>

    ghost predicate Valid()
      reads this
    {
      mode == ModeOf(taskId) && HasTaskFields(formData)
    }

    constructor (taskId: Option<string>, validate: Validator)
      ensures Valid()
      ensures this.taskId == taskId && this.validate == validate
      ensures task == None && formData == InitialForm() && formErrors == map[]
      ensures pending == [] && navigations == []
    {
      this.taskId := taskId;
      this.mode := ModeOf(taskId);
      this.validate := validate;
      task := None;
      formData := InitialForm();
      formErrors := map[];
      pending := [];
      navigations := [];
    }

    /** The load effect: in update mode fetch the task; in add mode do
        nothing. */
    method LoadEffect(token: string)
      requires Valid()
      modifies this
      ensures Valid()
      ensures pending == if mode == Update then old(pending) + [Pending(LoadRequest(taskId.value, token), StoreTask)]
                         else old(pending)
      ensures task == old(task) && formData == old(formData) && formErrors == old(formErrors)
      ensures navigations == old(navigations)
    {
      if mode == Update {
        pending := pending + [Pending(LoadRequest(taskId.value, token), StoreTask)];
      }
    }

    /** The load succeeded with `data.task`: the loaded task and the form
        now hold the same description and status. */
    method ResolveLoad(i: nat, loaded: Tasks.Task)
      requires Valid()
      requires i < |pending| && pending[i].onSuccess == StoreTask
      modifies this
      ensures Valid()
      ensures task == Some(loaded)
      ensures formData == TaskForm(loaded.description, loaded.status)
      ensures formErrors == old(formErrors) && navigations == old(navigations)
      ensures pending == RemoveAt(old(pending), i)
    {
      pending := RemoveAt(pending, i);
      task := Some(loaded);
      formData := TaskForm(loaded.description, loaded.status);
    }

    /** `handleChange`: only the named field changes. */
    method HandleChange(name: string, value: string)
      requires Valid()
      modifies this
      ensures Valid()
      ensures formData == Edit(old(formData), name, value)
      ensures task == old(task) && formErrors == old(formErrors)
      ensures pending == old(pending) && navigations == old(navigations)
    {
      formData := Edit(formData, name, value);
    }

    /** `handleReset`: put back the loaded task's description and status;
        with no task loaded, nothing changes. */
    method HandleReset()
      requires Valid()
      modifies this
      ensures Valid()
      ensures task == old(task)
      ensures formData == if task.Some? then TaskForm(task.value.description, task.value.status)
                          else old(formData)
      ensures formErrors == old(formErrors)
      ensures pending == old(pending) && navigations == old(navigations)
    {
      if task.Some? {
        formData := TaskForm(task.value.description, task.value.status);
      }
    }

    /** `handleSubmit`: validate; with any error show the folded errors and
        issue nothing; otherwise clear the errors and issue the create or
        update request, whose success navigates home. */
    method HandleSubmit(token: string)
      requires Valid()
      modifies this
      ensures Valid()
      ensures formErrors == FoldErrors(validate("task", formData))
      ensures pending == if validate("task", formData) == [] then old(pending) + [Pending(SubmitRequest(taskId, formData, token), GoHome)]
                         else old(pending)
      ensures formData == old(formData) && task == old(task) && navigations == old(navigations)
    {
      var errors := validate("task", formData);
      formErrors := map[];
      if |errors| > 0 {
        formErrors := FoldErrors(errors);
        return;
      }
      pending := pending + [Pending(SubmitRequest(taskId, formData, token), GoHome)];
    }

    /** The create or update succeeded: navigate to `/`. */
    method ResolveSubmit(i: nat)
      requires Valid()
      requires i < |pending| && pending[i].onSuccess == GoHome
      modifies this
      ensures Valid()
      ensures navigations == old(navigations) + ["/"]
      ensures pending == RemoveAt(old(pending), i)
      ensures task == old(task) && formData == old(formData) && formErrors == old(formErrors)
    {
      pending := RemoveAt(pending, i);
      navigations := navigations + ["/"];
    }

    /** Request `i` failed: its continuation never runs. */
    method Reject(i: nat)
      requires Valid()
      requires i < |pending|
      modifies this
      ensures Valid()
      ensures pending == RemoveAt(old(pending), i)
      ensures task == old(task) && formData == old(formData) && formErrors == old(formErrors)
      ensures navigations == old(navigations)
    {
      pending := RemoveAt(pending, i);
    }
  }
}
