/** Request descriptors: the config objects the views hand to the fetch hook.
    The hook itself (network I/O, loading flag, toasts) is not part of this
    model; a view that calls it records a descriptor together with the
    continuation its `.then` would run on success. */
module Http {

  datatype Option<+T> = None | Some(value: T)

  datatype Method = Get | Post | Put | Delete

  /** The `data` member of a config: absent, or a JSON object of strings. */
  datatype Body = NoBody | Json(fields: map<string, string>)

  /** One config object; `verb` is its `method`. `authorization` is the `Authorization` header
      (None when the config has no `headers`); `successToast` is the
      `showSuccessToast` option passed as the hook's second argument (None
      when the argument is omitted and the hook's own default applies). */
  datatype Request = Request(
    url: string,
    verb: Method,
    body: Body,
    authorization: Option<string>,
    successToast: Option<bool>)

  const TasksUrl: string := "/tasks"

  /** The template literal `/tasks/${id}`. */
  function TaskUrl(id: string): string {
    TasksUrl + "/" + id
  }

  /** Recovers the task id a URL addresses, if it addresses one task. */
  function TaskIdOf(url: string): Option<string> {
    if |url| > |TasksUrl| && url[..|TasksUrl| + 1] == TasksUrl + "/"
    then Some(url[|TasksUrl| + 1..])
    else None
  }

  /** A task URL addresses exactly the task it was built from, and the
      collection URL addresses no single task: distinct ids give distinct
      URLs, and no task URL is the collection URL. */
  lemma TaskUrlRoundTrip(id: string)
    ensures TaskIdOf(TaskUrl(id)) == Some(id)
    ensures TaskIdOf(TasksUrl) == None
  {
    var u := TaskUrl(id);
    assert u[..|TasksUrl| + 1] == TasksUrl + "/";
    assert u[|TasksUrl| + 1..] == id;
  }

  /** The list of outstanding requests once entry `i` has settled. */
  function RemoveAt<T>(s: seq<T>, i: nat): (r: seq<T>)
    requires i < |s|
    ensures |r| == |s| - 1
    ensures forall k :: 0 <= k < i ==> r[k] == s[k]
    ensures forall k :: i <= k < |r| ==> r[k] == s[k + 1]
  {
    s[..i] + s[i + 1..]
  }
}
