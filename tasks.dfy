/** The task list view (src/components/Tasks.jsx): the user's tasks as last
    fetched, the subset currently shown, and the search query and status
    filter that select it. */
module Tasks {
  import opened JsString
  import opened Http

  /** A task as the service returns it; `id` is its `_id`. */
  datatype Task = Task(id: string, description: string, status: string)

  /** The status filter value that lets every status through. */
  const AllStatuses: string := "all"

  /** The predicate passed to `tasks.filter`. */
  predicate Matches(t: Task, query: string, status: string) {
    Includes(Lower(t.description), query) && (status == AllStatuses || t.status == status)
  }

  /** `tasks.filter(task => Matches(task, query, status))`: only matching
      tasks, never more than there were. */
  function Filtered(ts: seq<Task>, query: string, status: string): (r: seq<Task>)
    ensures |r| <= |ts|
    ensures forall t :: t in r ==> t in ts && Matches(t, query, status)
    decreases |ts|
  {
    if ts == [] then []
    else if Matches(ts[0], query, status) then [ts[0]] + Filtered(ts[1..], query, status)
    else Filtered(ts[1..], query, status)
  }

  /** `a` is obtained from `b` by deleting elements, without reordering. */
  predicate IsSubsequence<T(==)>(a: seq<T>, b: seq<T>)
    decreases |b|
  {
    if a == [] then true
    else if b == [] then false
    else (a[0] == b[0] && IsSubsequence(a[1..], b[1..])) || IsSubsequence(a, b[1..])
  }

  lemma {:induction false} SubsequenceReflexive<T>(s: seq<T>)
    ensures IsSubsequence(s, s)
    decreases |s|
  {
    if s != [] {
      SubsequenceReflexive(s[1..]);
    }
  }

  /** Filtering keeps tasks in their original relative order. */
  lemma {:induction false} FilteredIsSubsequence(ts: seq<Task>, query: string, status: string)
    ensures IsSubsequence(Filtered(ts, query, status), ts)
    decreases |ts|
  {
    if ts != [] {
      FilteredIsSubsequence(ts[1..], query, status);
    }
  }

  /** Filtering keeps every matching task as often as it occurs, and drops
      every other: soundness and completeness at once. */
  lemma {:induction false} FilteredCount(ts: seq<Task>, query: string, status: string, t: Task)
    ensures multiset(Filtered(ts, query, status))[t]
         == if Matches(t, query, status) then multiset(ts)[t] else 0
    decreases |ts|
  {
    if ts != [] {
      FilteredCount(ts[1..], query, status, t);
      assert ts == [ts[0]] + ts[1..];
    }
  }

  /** Completeness: every matching task is shown. */
  lemma {:induction false} FilteredComplete(ts: seq<Task>, query: string, status: string, t: Task)
    requires t in ts && Matches(t, query, status)
    ensures t in Filtered(ts, query, status)
  {
    FilteredCount(ts, query, status, t);
  }

  /** A list whose every task matches is left as it is. */
  lemma {:induction false} FilteredAllMatching(ts: seq<Task>, query: string, status: string)
    requires forall t :: t in ts ==> Matches(t, query, status)
    ensures Filtered(ts, query, status) == ts
    decreases |ts|
  {
    if ts != [] {
      FilteredAllMatching(ts[1..], query, status);
    }
  }

  /** Filtering an already filtered list again with the same query and
      status gives the same list. */
  lemma {:induction false} FilteredIdempotent(ts: seq<Task>, query: string, status: string)
    ensures Filtered(Filtered(ts, query, status), query, status) == Filtered(ts, query, status)
  {
    FilteredAllMatching(Filtered(ts, query, status), query, status);
  }

  /** With the empty query and the status filter "all" every task is shown,
      because every string includes the empty string. */
  lemma {:induction false} FilteredShowsAll(ts: seq<Task>)
    ensures Filtered(ts, "", AllStatuses) == ts
  {
    FilteredAllMatching(ts, "", AllStatuses);
  }

  /** A fetch shows the whole fetched list while leaving the query and the
      status filter as they were; that list is what those would select
      exactly when every fetched task matches them. */
  lemma {:induction false} FetchedListAgreesWithFilterIff(ts: seq<Task>, query: string, status: string)
    ensures Filtered(ts, query, status) == ts <==> forall t :: t in ts ==> Matches(t, query, status)
  {
    if forall t :: t in ts ==> Matches(t, query, status) {
      FilteredAllMatching(ts, query, status);
    }
  }

  /** The config of `fetchTasks`: the whole collection, no single task,
      with the token and no success toast. */
  function FetchRequest(token: string): (r: Request)
    ensures r.url == TasksUrl && TaskIdOf(r.url) == None
    ensures r.verb == Get && r.body == NoBody
    ensures r.authorization == Some(token) && r.successToast == Some(false)
  {
    TaskUrlRoundTrip("");
    Request(TasksUrl, Get, NoBody, Some(token), Some(false))
  }

  /** The config of `handleDelete(id)`: it addresses exactly task `id`, with
      the token and the hook's default toast option. */
  function DeleteRequest(id: string, token: string): (r: Request)
    ensures r.url == TaskUrl(id) && TaskIdOf(r.url) == Some(id)
    ensures r.verb == Delete && r.body == NoBody
    ensures r.authorization == Some(token) && r.successToast == None
  {
    TaskUrlRoundTrip(id);
    Request(TaskUrl(id), Delete, NoBody, Some(token), None)
  }

  /** What the `.then` of an outstanding request does: store the fetched
      list, or (after a delete) fetch again with the token the deleting
      closure captured. */
  datatype OnSuccess = StoreTasks | RefetchTasks(token: string)

  datatype Pending = Pending(request: Request, onSuccess: OnSuccess)

  class TasksView {
    var tasks: seq<Task>
    var filteredTasks: seq<Task>
    var searchQuery: string
    var statusFilter: string
    /** Requests issued and not yet settled, in issue order. */
    var pending: seq<Pending>

    /** The stored query is always lower-case, and the shown list is always
        drawn from `tasks` in order. */
    ghost predicate Valid()
      reads this
    {
      IsLower(searchQuery) && IsSubsequence(filteredTasks, tasks)
    }

    constructor ()
      ensures Valid()
      ensures tasks == [] && filteredTasks == []
      ensures searchQuery == "" && statusFilter == AllStatuses && pending == []
    {
      tasks, filteredTasks := [], [];
      searchQuery, statusFilter := "", AllStatuses;
      pending := [];
    }

    /** The effect on `isLoggedIn`: fetch the list, but only when logged in. */
    method SessionEffect(isLoggedIn: bool, token: string)
      requires Valid()
      modifies this
      ensures Valid()
      ensures pending == if isLoggedIn then old(pending) + [Pending(FetchRequest(token), StoreTasks)]
                         else old(pending)
      ensures tasks == old(tasks) && filteredTasks == old(filteredTasks)
      ensures searchQuery == old(searchQuery) && statusFilter == old(statusFilter)
    {
      if !isLoggedIn {
        return;
      }
      FetchTasks(token);
    }

    /** `fetchTasks`: issue `GET /tasks`; its success stores the list. */
    method FetchTasks(token: string)
      requires Valid()
      modifies this
      ensures Valid()
      ensures pending == old(pending) + [Pending(FetchRequest(token), StoreTasks)]
      ensures tasks == old(tasks) && filteredTasks == old(filteredTasks)
      ensures searchQuery == old(searchQuery) && statusFilter == old(statusFilter)
    {
      pending := pending + [Pending(FetchRequest(token), StoreTasks)];
    }

    /** The fetch succeeded with `data.tasks`: both lists become the fetched
        list, whatever query and status filter are on show. */
    method ResolveFetch(i: nat, fetched: seq<Task>)
      requires Valid()
      requires i < |pending| && pending[i].onSuccess == StoreTasks
      modifies this
      ensures Valid()
      ensures tasks == fetched && filteredTasks == fetched
      ensures searchQuery == old(searchQuery) && statusFilter == old(statusFilter)
      ensures pending == RemoveAt(old(pending), i)
    {
      pending := RemoveAt(pending, i);
      tasks := fetched;
      filteredTasks := fetched;
      SubsequenceReflexive(fetched);
    }

    /** `handleDelete(id)`: issue `DELETE /tasks/{id}`; its success refetches. */
    method HandleDelete(id: string, token: string)
      requires Valid()
      modifies this
      ensures Valid()
      ensures pending == old(pending) + [Pending(DeleteRequest(id, token), RefetchTasks(token))]
      ensures tasks == old(tasks) && filteredTasks == old(filteredTasks)
      ensures searchQuery == old(searchQuery) && statusFilter == old(statusFilter)
    {
      pending := pending + [Pending(DeleteRequest(id, token), RefetchTasks(token))];
    }

    /** The delete succeeded: the list is fetched again, and nothing else
        changes until that fetch settles. */
    method ResolveDelete(i: nat)
      requires Valid()
      requires i < |pending| && pending[i].onSuccess.RefetchTasks?
      modifies this
      ensures Valid()
      ensures pending == RemoveAt(old(pending), i)
                         + [Pending(FetchRequest(old(pending)[i].onSuccess.token), StoreTasks)]
      ensures tasks == old(tasks) && filteredTasks == old(filteredTasks)
      ensures searchQuery == old(searchQuery) && statusFilter == old(statusFilter)
    {
      var token := pending[i].onSuccess.token;
      pending := RemoveAt(pending, i);
      FetchTasks(token);
    }

    /** Request `i` failed: its continuation never runs. */
    method Reject(i: nat)
      requires Valid()
      requires i < |pending|
      modifies this
      ensures Valid()
      ensures pending == RemoveAt(old(pending), i)
      ensures tasks == old(tasks) && filteredTasks == old(filteredTasks)
      ensures searchQuery == old(searchQuery) && statusFilter == old(statusFilter)
    {
      pending := RemoveAt(pending, i);
    }

    /** `filterTasks(query, status)`: show the tasks of `tasks` that match. */
    method FilterTasks(query: string, status: string)
      requires Valid()
      modifies this`filteredTasks
      ensures Valid()
      ensures filteredTasks == Filtered(tasks, query, status)
    {
      filteredTasks := Filtered(tasks, query, status);
      FilteredIsSubsequence(tasks, query, status);
    }

    /** `handleSearch`: store the lower-cased input and filter with it and
        the current status filter. */
    method HandleSearch(input: string)
      requires Valid()
      modifies this
      ensures Valid()
      ensures searchQuery == Lower(input)
      ensures filteredTasks == Filtered(tasks, Lower(input), statusFilter)
      ensures tasks == old(tasks) && statusFilter == old(statusFilter) && pending == old(pending)
    {
      var query := Lower(input);
      searchQuery := query;
      FilterTasks(query, statusFilter);
    }

    /** `handleStatusFilter`: store the status and filter with it and the
        stored query. */
    method HandleStatusFilter(status: string)
      requires Valid()
      modifies this
      ensures Valid()
      ensures statusFilter == status
      ensures filteredTasks == Filtered(tasks, searchQuery, status)
      ensures tasks == old(tasks) && searchQuery == old(searchQuery) && pending == old(pending)
    {
      statusFilter := status;
      FilterTasks(searchQuery, status);
    }
  }
}
