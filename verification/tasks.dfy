/** The task board (`TaskStore`) and the text of its four tools. Ids come
    from a counter that only `clear` resets; the store is an insertion-ordered
    dictionary from id string to task. Any status may follow any other. */
module Tasks {
  import opened Wrappers
  import opened Text
  import opened OrderedMaps
  import opened ToolBase

  datatype TaskStatus = Pending | InProgress | Completed | Deleted

  /** `TaskStatus.value`. */
  function StatusName(s: TaskStatus): string {
    match s
    case Pending => "pending"
    case InProgress => "in_progress"
    case Completed => "completed"
    case Deleted => "deleted"
  }

  /** `TaskStatus(name)`: `None` where Python raises ValueError. */
  function ParseStatus(name: string): (r: Option<TaskStatus>)
    ensures r.Some? ==> StatusName(r.value) == name
  {
    if name == "pending" then Some(Pending)
    else if name == "in_progress" then Some(InProgress)
    else if name == "completed" then Some(Completed)
    else if name == "deleted" then Some(Deleted)
    else None
  }

  lemma ParseStatusName(s: TaskStatus)
    ensures ParseStatus(StatusName(s)) == Some(s)
  {
  }

  /** A `TaskItem`. The id string is `str(num)`, see `Id`. */
  datatype TaskItem = TaskItem(
    num: nat,
    subject: string,
    description: string,
    status: TaskStatus,
    activeForm: string,
    owner: string,
    blockedBy: seq<string>,
    blocks: seq<string>,
    metadata: OMap<string>)

  function Id(t: TaskItem): string {
    NatToString(t.num)
  }

  datatype TaskStore = TaskStore(tasks: OMap<TaskItem>, counter: nat)

  /** Every entry is stored under its own id, every id was issued by the
      counter, and ids increase in insertion order. */
  predicate Valid(st: TaskStore) {
    && (forall i :: 0 <= i < |st.tasks| ==> st.tasks[i].0 == Id(st.tasks[i].1))
    && (forall i :: 0 <= i < |st.tasks| ==> 1 <= st.tasks[i].1.num <= st.counter)
    && (forall i, j :: 0 <= i < j < |st.tasks| ==> st.tasks[i].1.num < st.tasks[j].1.num)
  }

  lemma ValidUniqueKeys(st: TaskStore)
    requires Valid(st)
    ensures UniqueKeys(st.tasks)
  {
    forall i, j | 0 <= i < j < |st.tasks|
      ensures st.tasks[i].0 != st.tasks[j].0
    {
      if st.tasks[i].0 == st.tasks[j].0 {
        NatToStringInjective(st.tasks[i].1.num, st.tasks[j].1.num);
      }
    }
  }

  /** An id beyond the counter has never been issued. */
  lemma FreshIdAbsent(st: TaskStore, n: nat)
    requires Valid(st) && n > st.counter
    ensures !HasKey(st.tasks, NatToString(n))
  {
    forall i | 0 <= i < |st.tasks|
      ensures st.tasks[i].0 != NatToString(n)
    {
      if st.tasks[i].0 == NatToString(n) {
        NatToStringInjective(st.tasks[i].1.num, n);
      }
    }
  }

  function EmptyStore(): (r: TaskStore)
    ensures Valid(r)
  {
    TaskStore([], 0)
  }

  /** `create`: the counter advances and its new value is the id. */
  function Create(st: TaskStore, subject: string, description: string, activeForm: string): (r: (TaskStore, TaskItem))
    requires Valid(st)
    ensures Valid(r.0)
    ensures r.0.counter == st.counter + 1 && r.1.num == r.0.counter
    ensures forall i :: 0 <= i < |st.tasks| ==> st.tasks[i].1.num < r.1.num
    ensures r.1.status == Pending && r.1.subject == subject && r.1.description == description
    ensures r.1.activeForm == if activeForm == "" then "Working on: " + subject else activeForm
    ensures r.1.owner == "" && r.1.blockedBy == [] && r.1.blocks == [] && r.1.metadata == []
    ensures Keys(r.0.tasks) == Keys(st.tasks) + [Id(r.1)]
    ensures Get(r.0.tasks, Id(r.1)) == Some(r.1)
    ensures forall k :: k != Id(r.1) ==> Get(r.0.tasks, k) == Get(st.tasks, k)
  {
    var n := st.counter + 1;
    var t := TaskItem(n, subject, description, Pending,
                      if activeForm == "" then "Working on: " + subject else activeForm,
                      "", [], [], []);
    FreshIdAbsent(st, n);
    AppendEffect(st.tasks, Id(t), t);
    AppendKeepsValid(st, t);
    var tasks := Put(st.tasks, Id(t), t);
    assert tasks == st.tasks + [(Id(t), t)];
    (TaskStore(tasks, n), t)
  }

  /** Storing a task numbered one past the counter keeps the board valid. */
  lemma AppendKeepsValid(st: TaskStore, t: TaskItem)
    requires Valid(st) && t.num == st.counter + 1
    ensures Valid(TaskStore(st.tasks + [(Id(t), t)], t.num))
  {
    var r := st.tasks + [(Id(t), t)];
    assert forall i :: 0 <= i < |st.tasks| ==> r[i] == st.tasks[i];
    assert r[|st.tasks|] == (Id(t), t);
  }

  /** `get`. */
  function GetTask(st: TaskStore, id: string): Option<TaskItem> {
    Get(st.tasks, id)
  }

  /** The status argument of `update`: a string from the tool call, or an
      enum value from a direct caller. */
  datatype StatusArg = ByName(name: string) | ByEnum(status: TaskStatus)

  /** The keyword arguments of `update`; `None` means the keyword is absent. */
  datatype UpdateArgs = UpdateArgs(
    status: Option<StatusArg>,
    subject: Option<string>,
    description: Option<string>,
    activeForm: Option<string>,
    owner: Option<string>,
    addBlockedBy: Option<seq<string>>,
    addBlocks: Option<seq<string>>,
    metadata: Option<OMap<string>>)

  /** `NotFound` is update's `None`; `Invalid` is the ValueError raised by
      `TaskStatus(name)` for an unknown name. */
  datatype UpdateOutcome = NotFound | Removed(previous: TaskItem) | Updated(task: TaskItem) | Invalid(name: string)

  /** The field assignments of `update` after the status has been settled. */
  function ApplyFields(t: TaskItem, a: UpdateArgs): (r: TaskItem)
    ensures r.num == t.num
    ensures r.subject == a.subject.GetOr(t.subject)
    ensures r.description == a.description.GetOr(t.description)
    ensures r.activeForm == a.activeForm.GetOr(t.activeForm)
    ensures r.owner == a.owner.GetOr(t.owner)
    ensures r.blockedBy == t.blockedBy + a.addBlockedBy.GetOr([])
    ensures r.blocks == t.blocks + a.addBlocks.GetOr([])
    ensures r.status == t.status
    ensures r.metadata == if a.metadata.Some? then Merge(t.metadata, a.metadata.value) else t.metadata
  {
    t.(subject := a.subject.GetOr(t.subject),
       description := a.description.GetOr(t.description),
       activeForm := a.activeForm.GetOr(t.activeForm),
       owner := a.owner.GetOr(t.owner),
       blockedBy := t.blockedBy + a.addBlockedBy.GetOr([]),
       blocks := t.blocks + a.addBlocks.GetOr([]),
       metadata := if a.metadata.Some? then Merge(t.metadata, a.metadata.value) else t.metadata)
  }

  /** `update`. The string "deleted" removes the entry and hands back the task
      as it was, ignoring the other keywords of that call; any other status,
      from any current status, is simply assigned. */
  function Update(st: TaskStore, id: string, a: UpdateArgs): (r: (TaskStore, UpdateOutcome))
    requires Valid(st)
    ensures Valid(r.0)
    ensures r.1.NotFound? <==> GetTask(st, id).None?
    ensures r.1.NotFound? || r.1.Invalid? ==> r.0 == st
    ensures r.1.Invalid? <==> GetTask(st, id).Some? && a.status.Some? && a.status.value.ByName? &&
                              a.status.value.name != "deleted" && ParseStatus(a.status.value.name).None?
    ensures r.1.Removed? <==> GetTask(st, id).Some? && a.status == Some(ByName("deleted"))
    ensures r.1.Removed? ==>
              r.1.previous == GetTask(st, id).value && GetTask(r.0, id).None? &&
              r.0.counter == st.counter &&
              forall k :: k != id ==> GetTask(r.0, k) == GetTask(st, k)
    ensures r.1.Updated? ==>
              && GetTask(r.0, id) == Some(r.1.task)
              && Keys(r.0.tasks) == Keys(st.tasks)
              && r.0.counter == st.counter
              && (forall k :: k != id ==> GetTask(r.0, k) == GetTask(st, k))
              && r.1.task == ApplyFields(GetTask(st, id).value.(status := NewStatus(GetTask(st, id).value, a)), a)
  {
    match GetTask(st, id)
    case None => (st, NotFound)
    case Some(t) =>
      if a.status == Some(ByName("deleted")) then
        ValidUniqueKeys(st);
        var tasks := Remove(st.tasks, id);
        var st' := TaskStore(tasks, st.counter);
        assert Valid(st') by { RemoveKeepsValid(st, id); }
        (st', Removed(t))
      else if a.status.Some? && a.status.value.ByName? && ParseStatus(a.status.value.name).None? then
        (st, Invalid(a.status.value.name))
      else
        var t' := ApplyFields(t.(status := NewStatus(t, a)), a);
        var tasks := Put(st.tasks, id, t');
        assert Valid(TaskStore(tasks, st.counter)) by { PutSameNumKeepsValid(st, id, t'); }
        (TaskStore(tasks, st.counter), Updated(t'))
  }

  /** The status `update` assigns, once "deleted" and invalid names are ruled out. */
  function NewStatus(t: TaskItem, a: UpdateArgs): TaskStatus {
    match a.status
    case None => t.status
    case Some(ByEnum(s)) => s
    case Some(ByName(n)) => ParseStatus(n).GetOr(t.status)
  }

  lemma RemoveKeepsValid(st: TaskStore, id: string)
    requires Valid(st)
    ensures UniqueKeys(st.tasks)
    ensures Valid(TaskStore(Remove(st.tasks, id), st.counter))
  {
    ValidUniqueKeys(st);
    match IndexOf(st.tasks, id)
    case None =>
    case Some(i) =>
      assert Remove(st.tasks, id) == st.tasks[..i] + st.tasks[i + 1..];
      RemoveAtKeepsValid(st, i);
  }

  /** Deleting any one entry keeps the board valid. */
  lemma RemoveAtKeepsValid(st: TaskStore, i: nat)
    requires Valid(st) && i < |st.tasks|
    ensures Valid(TaskStore(st.tasks[..i] + st.tasks[i + 1..], st.counter))
  {
    var m := st.tasks;
    var r := m[..i] + m[i + 1..];
    RemoveAtIndex(m, i);
    forall j | 0 <= j < |r|
      ensures r[j] == m[Skip(j, i)]
    {
    }
    forall j | 0 <= j < |r|
      ensures r[j].0 == Id(r[j].1) && 1 <= r[j].1.num <= st.counter
    {
      assert r[j] == m[Skip(j, i)];
    }
    forall j1, j2 | 0 <= j1 < j2 < |r|
      ensures r[j1].1.num < r[j2].1.num
    {
      assert r[j1] == m[Skip(j1, i)] && r[j2] == m[Skip(j2, i)];
    }
  }

  /** Position in the original sequence of index `j` after deleting index `i`. */
  function Skip(j: nat, i: nat): nat {
    if j < i then j else j + 1
  }

  lemma PutSameNumKeepsValid(st: TaskStore, id: string, t': TaskItem)
    requires Valid(st) && GetTask(st, id).Some? && t'.num == GetTask(st, id).value.num
    ensures Valid(TaskStore(Put(st.tasks, id, t'), st.counter))
  {
    var i := IndexOf(st.tasks, id).value;
    assert Put(st.tasks, id, t') == st.tasks[i := (id, t')];
    ReplaceAtKeepsValid(st, i, t');
  }

  /** Replacing the task at `i` by one with the same number keeps the board valid. */
  lemma ReplaceAtKeepsValid(st: TaskStore, i: nat, t': TaskItem)
    requires Valid(st) && i < |st.tasks| && t'.num == st.tasks[i].1.num
    ensures Valid(TaskStore(st.tasks[i := (st.tasks[i].0, t')], st.counter))
  {
    var r := st.tasks[i := (st.tasks[i].0, t')];
    assert forall j :: 0 <= j < |r| ==> r[j].1.num == st.tasks[j].1.num;
    assert forall j :: 0 <= j < |r| ==> r[j].0 == st.tasks[j].0;
  }

  /** Any enum status can be assigned to any existing task, whatever its
      current status: there is no transition table. */
  lemma AnyTransitionAllowed(st: TaskStore, id: string, s: TaskStatus, a: UpdateArgs)
    requires Valid(st) && GetTask(st, id).Some?
    requires a.status == Some(ByEnum(s))
    ensures Update(st, id, a).1.Updated? && Update(st, id, a).1.task.status == s
  {
  }

  /** `list_all`: the tasks whose status is not DELETED, in insertion order. */
  function ListAll(st: TaskStore): (r: seq<TaskItem>)
    ensures |r| <= |st.tasks|
    ensures forall i :: 0 <= i < |r| ==> r[i].status != Deleted
    ensures forall t :: t in r <==> t in Values(st.tasks) && t.status != Deleted
  {
    LiveTasks(Values(st.tasks))
  }

  function LiveTasks(ts: seq<TaskItem>): (r: seq<TaskItem>)
    ensures |r| <= |ts|
    ensures forall i :: 0 <= i < |r| ==> r[i].status != Deleted
    ensures forall t :: t in r <==> t in ts && t.status != Deleted
  {
    if |ts| == 0 then []
    else if ts[0].status != Deleted then [ts[0]] + LiveTasks(ts[1..])
    else LiveTasks(ts[1..])
  }

  /** Listing keeps creation order: ids increase along the list. */
  lemma {:induction false} LiveTasksOrdered(ts: seq<TaskItem>)
    requires forall i, j :: 0 <= i < j < |ts| ==> ts[i].num < ts[j].num
    ensures forall i, j :: 0 <= i < j < |LiveTasks(ts)| ==> LiveTasks(ts)[i].num < LiveTasks(ts)[j].num
  {
    if |ts| > 0 {
      LiveTasksOrdered(ts[1..]);
      forall t | t in LiveTasks(ts[1..])
        ensures ts[0].num < t.num
      {
        var k :| 0 <= k < |ts[1..]| && ts[1..][k] == t;
        assert ts[k + 1] == t;
      }
    }
  }

  lemma ListAllOrdered(st: TaskStore)
    requires Valid(st)
    ensures forall i, j :: 0 <= i < j < |ListAll(st)| ==> ListAll(st)[i].num < ListAll(st)[j].num
  {
    LiveTasksOrdered(Values(st.tasks));
  }

  /** `clear`. */
  function Clear(st: TaskStore): (r: TaskStore)
    ensures Valid(r) && |r.tasks| == 0 && r.counter == 0
  {
    TaskStore([], 0)
  }

  /** After `clear` the next id issued is "1". */
  lemma ClearRestartsIds(st: TaskStore, subject: string, description: string, activeForm: string)
    ensures Id(Create(Clear(st), subject, description, activeForm).1) == "1"
  {
  }

  /** Two tasks created in a row get different, increasing ids. */
  lemma CreateTwiceDistinct(st: TaskStore, s1: string, d1: string, a1: string, s2: string, d2: string, a2: string)
    requires Valid(st)
    ensures var (st1, t1) := Create(st, s1, d1, a1);
            var (st2, t2) := Create(st1, s2, d2, a2);
            t1.num < t2.num && Id(t1) != Id(t2) && Get(st2.tasks, Id(t1)) == Some(t1)
  {
    var (st1, t1) := Create(st, s1, d1, a1);
    var (st2, t2) := Create(st1, s2, d2, a2);
    if Id(t1) == Id(t2) {
      NatToStringInjective(t1.num, t2.num);
    }
  }

  // ---- tool texts ----

  /** `task_create`'s reply. */
  function CreateText(t: TaskItem): string {
    "Task #" + Id(t) + " created: " + t.subject
  }

  /** `task_update`'s handler. `Invalid` surfaces as the ValueError the
      registry turns into an "Error executing" string. */
  function UpdateToolOutcome(id: string, out: UpdateOutcome): (r: HandlerOutcome)
    ensures r.Raised? <==> out.Invalid?
    ensures out.NotFound? ==> r == Returned("Error: Task #" + id + " not found")
  {
    match out
    case NotFound => Returned("Error: Task #" + id + " not found")
    case Removed(_) => Returned("Task #" + id + " deleted")
    case Updated(t) => Returned("Task #" + id + " updated: " + t.subject + " [" + StatusName(t.status) + "]")
    case Invalid(n) => Raised("'" + n + "' is not a valid TaskStatus")
  }

  function StatusIcon(s: TaskStatus): string {
    match s
    case Pending => "\U{25CB}"
    case InProgress => "\U{25D0}"
    case Completed => "\U{25CF}"
    case Deleted => "?"
  }

  function ListLine(t: TaskItem): (r: string)
    ensures StartsWith(r, "#")
  {
    "#" + Id(t) + " " + StatusIcon(t.status) + " [" + StatusName(t.status) + "] " + t.subject
      + (if |t.blockedBy| > 0 then " (blocked by: " + Join(t.blockedBy, ", ") + ")" else "")
  }

  /** One `ListLine` per task, in order. */
  function ListLines(ts: seq<TaskItem>): (r: seq<string>)
    ensures |r| == |ts|
    ensures forall i :: 0 <= i < |ts| ==> r[i] == ListLine(ts[i])
  {
    seq(|ts|, i requires 0 <= i < |ts| => ListLine(ts[i]))
  }

  /** `task_list`'s reply. */
  function ListText(st: TaskStore): (r: string)
    ensures |ListAll(st)| == 0 <==> r == "No tasks found"
    ensures |ListAll(st)| > 0 ==> r == Join(ListLines(ListAll(st)), "\n")
  {
    var ts := ListAll(st);
    if |ts| == 0 then "No tasks found"
    else
      var lines := ListLines(ts);
      JoinStartsWith(lines, "\n", "#");
      Join(lines, "\n")
  }

  /** The listing opens with the oldest live task and shows every live task's
      line. */
  lemma ListTextShowsEach(st: TaskStore, i: nat)
    requires i < |ListAll(st)|
    ensures StartsWith(ListText(st), ListLine(ListAll(st)[0]))
    ensures Contains(ListText(st), ListLine(ListAll(st)[i]))
  {
    var lines := ListLines(ListAll(st));
    JoinStartsWithFirst(lines, "\n");
    JoinContains(lines, "\n", i);
  }

  lemma JoinStartsWith(xs: seq<string>, sep: string, p: string)
    requires |xs| > 0 && StartsWith(xs[0], p)
    ensures StartsWith(Join(xs, sep), p)
  {
    if |xs| > 1 {
      assert Join(xs, sep) == xs[0] + (sep + Join(xs[1..], sep));
    }
  }

  /** The lines of `task_get`'s reply for a task that exists. */
  function TaskLines(t: TaskItem): (r: seq<string>)
    ensures |r| >= 3
    ensures r[0] == "Task #" + Id(t) + ": " + t.subject
    ensures r[1] == "Status: " + StatusName(t.status)
    ensures r[2] == "Description: " + t.description
    ensures |r| == 3 + (if |t.blockedBy| > 0 then 1 else 0) + (if |t.blocks| > 0 then 1 else 0)
                     + (if |t.owner| > 0 then 1 else 0)
    ensures |t.blockedBy| > 0 ==> r[3] == "Blocked by: " + Join(t.blockedBy, ", ")
    ensures |t.blocks| > 0 ==> r[if |t.blockedBy| > 0 then 4 else 3] == "Blocks: " + Join(t.blocks, ", ")
    ensures |t.owner| > 0 ==> r[|r| - 1] == "Owner: " + t.owner
  {
    ["Task #" + Id(t) + ": " + t.subject,
     "Status: " + StatusName(t.status),
     "Description: " + t.description]
      + (if |t.blockedBy| > 0 then ["Blocked by: " + Join(t.blockedBy, ", ")] else [])
      + (if |t.blocks| > 0 then ["Blocks: " + Join(t.blocks, ", ")] else [])
      + (if |t.owner| > 0 then ["Owner: " + t.owner] else [])
  }

  lemma TaskTextShape(t: TaskItem)
    ensures StartsWith(Join(TaskLines(t), "\n"), "Task #" + Id(t) + ": " + t.subject + "\n"
                       + ("Status: " + StatusName(t.status)) + "\n" + ("Description: " + t.description))
    ensures |t.owner| > 0 ==> Contains(Join(TaskLines(t), "\n"), "Owner: " + t.owner)
    ensures |t.blockedBy| > 0 ==> Contains(Join(TaskLines(t), "\n"), "Blocked by: " + Join(t.blockedBy, ", "))
    ensures |t.blocks| > 0 ==> Contains(Join(TaskLines(t), "\n"), "Blocks: " + Join(t.blocks, ", "))
  {
    var lines := TaskLines(t);
    JoinHead3(lines, "\n");
    if |t.blockedBy| > 0 {
      JoinContains(lines, "\n", 3);
    }
    if |t.blocks| > 0 {
      JoinContains(lines, "\n", if |t.blockedBy| > 0 then 4 else 3);
    }
    if |t.owner| > 0 {
      JoinContains(lines, "\n", |lines| - 1);
    }
  }

  /** `task_get`'s reply. */
  function GetText(st: TaskStore, id: string): (r: string)
    ensures GetTask(st, id).None? <==> r == "Error: Task #" + id + " not found"
    ensures GetTask(st, id).Some? ==>
              var t := GetTask(st, id).value;
              StartsWith(r, "Task #" + Id(t) + ": " + t.subject + "\n"
                            + ("Status: " + StatusName(t.status)) + "\n" + ("Description: " + t.description))
    ensures GetTask(st, id).Some? && |GetTask(st, id).value.owner| > 0 ==>
              Contains(r, "Owner: " + GetTask(st, id).value.owner)
    ensures GetTask(st, id).Some? && |GetTask(st, id).value.blockedBy| > 0 ==>
              Contains(r, "Blocked by: " + Join(GetTask(st, id).value.blockedBy, ", "))
    ensures GetTask(st, id).Some? && |GetTask(st, id).value.blocks| > 0 ==>
              Contains(r, "Blocks: " + Join(GetTask(st, id).value.blocks, ", "))
  {
    match GetTask(st, id)
    case None => "Error: Task #" + id + " not found"
    case Some(t) =>
      TaskTextShape(t);
      var r := Join(TaskLines(t), "\n");
      assert r[0] == 'T';
      r
  }

  /** A join of at least three pieces begins with the first three, separated. */
  lemma JoinHead3(xs: seq<string>, sep: string)
    requires |xs| >= 3
    ensures StartsWith(Join(xs, sep), xs[0] + sep + xs[1] + sep + xs[2])
  {
    var j2 := Join(xs[2..], sep);
    JoinStartsWithFirst(xs[2..], sep);
    assert xs[1..][1..] == xs[2..];
    assert Join(xs, sep) == (xs[0] + sep + xs[1] + sep) + j2;
    PrefixExtend(xs[0] + sep + xs[1] + sep, j2, xs[2]);
  }

  lemma PrefixExtend(a: string, b: string, p: string)
    requires StartsWith(b, p)
    ensures StartsWith(a + b, a + p)
  {
    assert (a + b)[..|a + p|] == a + b[..|p|];
  }
}
