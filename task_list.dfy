/**
 * The task list as values: the records, what the tasks file can hold, what
 * the program writes to the console, and the list transformations and
 * listing that the store's operations apply.
 */
module TaskList {
  import opened Wrappers
  import opened JsNumbers

  /** One to-do item: its label (field `task` of the stored record) and its completion flag. */
  datatype Task = Task(task: string, completed: bool)

  /** What the tasks file holds. */
  datatype FileState =
    | Missing                   // the file does not exist
    | Unreadable                // it exists but cannot be read or parsed as a list of tasks
    | Holds(tasks: seq<Task>)   // it holds this list

  /** One piece of console output: a question's text, a `console.log` line or a `console.error` line. */
  datatype Output = Prompt(text: string) | Log(text: string) | Error(text: string)

  const Header := "Tasks:"
  const LoadErrorMessage := "Error loading tasks:"
  const InitializedMessage := "Tasks file initialized successfully."
  const AddedMessage := "Task added successfully!"
  const MarkedMessage := "Task marked as complete!"
  const RemovedMessage := "Task removed successfully!"
  const InvalidIndexMessage := "Invalid task index!"

  /** The list that loading the file yields: a missing or unreadable file yields the empty list. */
  function Loaded(f: FileState): (ts: seq<Task>)
    ensures f.Holds? ==> ts == f.tasks
    ensures !f.Holds? ==> ts == []
  {
    if f.Holds? then f.tasks else []
  }

  /** What loading the file reports: an error for an unreadable file, nothing otherwise. */
  function LoadLog(f: FileState): (out: seq<Output>)
    ensures f.Unreadable? <==> out == [Error(LoadErrorMessage)]
    ensures !f.Unreadable? <==> out == []
  {
    if f.Unreadable? then [Error(LoadErrorMessage)] else []
  }

  /** Loading what was just saved gives back exactly the saved list, silently. */
  lemma LoadAfterSave(ts: seq<Task>)
    ensures Loaded(Holds(ts)) == ts && LoadLog(Holds(ts)) == []
  {
  }

  /**
   * Saving the loaded list makes the file hold a list that loads silently; doing
   * it again leaves the file as it is. A missing or unreadable file becomes the
   * empty list, and a file holding a list is rewritten unchanged.
   */
  lemma ResaveIdempotent(f: FileState)
    ensures LoadLog(Holds(Loaded(f))) == []
    ensures Holds(Loaded(Holds(Loaded(f)))) == Holds(Loaded(f))
    ensures f.Holds? ==> Holds(Loaded(f)) == f
    ensures !f.Holds? ==> Holds(Loaded(f)) == Holds([])
  {
  }

  /**
   * The bounds check of mark and remove. The index is `None` when the typed
   * argument parsed as NaN, which fails both comparisons.
   */
  predicate ValidIndex(ts: seq<Task>, index: Option<int>)
  {
    index.Some? && 0 <= index.value < |ts|
  }

  /** `ts` with the unchecked task `text` appended: the earlier tasks stay as they were. */
  function Added(ts: seq<Task>, text: string): (r: seq<Task>)
    ensures |r| == |ts| + 1 && r[..|ts|] == ts
    ensures r[|ts|] == Task(text, false)
  {
    ts + [Task(text, false)]
  }

  /** `ts` with the task at `i` completed: only that flag may change. */
  function Marked(ts: seq<Task>, i: nat): (r: seq<Task>)
    requires i < |ts|
    ensures |r| == |ts| && r[i].completed
    ensures forall k :: 0 <= k < |ts| ==> r[k].task == ts[k].task
    ensures forall k :: 0 <= k < |ts| && k != i ==> r[k] == ts[k]
  {
    ts[i := ts[i].(completed := true)]
  }

  /** `ts` with the task at `i` taken out: the tasks before it stay, the ones after move down by one. */
  function Removed(ts: seq<Task>, i: nat): (r: seq<Task>)
    requires i < |ts|
    ensures |r| == |ts| - 1
    ensures forall k :: 0 <= k < i ==> r[k] == ts[k]
    ensures forall k :: i <= k < |r| ==> r[k] == ts[k + 1]
  {
    ts[..i] + ts[i + 1..]
  }

  /** The line the listing shows for task `t` at 0-based position `i`. */
  function FormatLine(i: nat, t: Task): string
  {
    DecimalString(i + 1) + ". [" + (if t.completed then "X" else " ") + "] " + t.task
  }

  /** The listing of `ts`: the header, then one line per task in list order. */
  function Listing(ts: seq<Task>): (lines: seq<string>)
    ensures |lines| == |ts| + 1 && lines[0] == Header
    ensures forall k :: 0 <= k < |ts| ==> lines[k + 1] == FormatLine(k, ts[k])
  {
    [Header] + seq(|ts|, k requires 0 <= k < |ts| => FormatLine(k, ts[k]))
  }

  /** Each line written with `console.log`. */
  function Logs(lines: seq<string>): (out: seq<Output>)
    ensures |out| == |lines| && forall k :: 0 <= k < |lines| ==> out[k] == Log(lines[k])
  {
    seq(|lines|, k requires 0 <= k < |lines| => Log(lines[k]))
  }

  /** Logging one more line appends one more output. */
  lemma LogsSnoc(lines: seq<string>, line: string)
    ensures Logs(lines + [line]) == Logs(lines) + [Log(line)]
  {
    assert Logs(lines + [line])[|lines|] == Log(line);
  }

  /** Logging the next line of a listing extends the logged prefix of the listing by that line. */
  lemma ListingLogsStep(log: seq<Output>, ts: seq<Task>, i: nat)
    requires i < |ts|
    ensures log + Logs(Listing(ts)[..i + 1]) + [Log(FormatLine(i, ts[i]))] == log + Logs(Listing(ts)[..i + 2])
  {
    var lines := Listing(ts);
    assert lines[..i + 2] == lines[..i + 1] + [FormatLine(i, ts[i])];
    LogsSnoc(lines[..i + 1], FormatLine(i, ts[i]));
  }

  /** Marking twice is marking once. */
  lemma MarkIdempotent(ts: seq<Task>, i: nat)
    requires i < |ts|
    ensures Marked(Marked(ts, i), i) == Marked(ts, i)
  {
  }

  /** Removing a task takes exactly that one task out of the multiset of tasks. */
  lemma RemovedTakesOne(ts: seq<Task>, i: nat)
    requires i < |ts|
    ensures multiset(Removed(ts, i)) + multiset{ts[i]} == multiset(ts)
  {
    assert ts == ts[..i] + [ts[i]] + ts[i + 1..];
  }

  /** A line of the listing says, after its number, whether the task is done and what its label is. */
  lemma FormatLineShows(i: nat, t: Task)
    ensures var n := |DecimalString(i + 1)|;
      var line := FormatLine(i, t);
      |line| == n + 6 + |t.task| && line[n..n + 3] == ". [" &&
      line[n + 3] == (if t.completed then 'X' else ' ') && line[n + 4..n + 6] == "] " && line[n + 6..] == t.task
  {
  }

  /** The leading number of listing line `i` is read back by `parseInt` as `i + 1`. */
  lemma FormatLineNumber(i: nat, t: Task)
    ensures ParseInt(FormatLine(i, t)) == Some(i + 1)
  {
    var rest := ". [" + (if t.completed then "X" else " ") + "] " + t.task;
    assert FormatLine(i, t) == DecimalString(i + 1) + rest;
    ParseIntOfDecimal(i + 1, rest);
  }

  /** After marking task `i`, the listing differs only in line `i + 1`, which shows the task as done. */
  lemma ListingAfterMark(ts: seq<Task>, i: nat)
    requires i < |ts|
    ensures |Listing(Marked(ts, i))| == |Listing(ts)|
    ensures Listing(Marked(ts, i))[i + 1] == FormatLine(i, Task(ts[i].task, true))
    ensures forall k :: 0 <= k < |Listing(ts)| && k != i + 1 ==> Listing(Marked(ts, i))[k] == Listing(ts)[k]
  {
    var m := Marked(ts, i);
    assert m[i] == Task(ts[i].task, true);
    ListingAgrees(ts, m, i);
  }

  /** Lists of one length whose tasks agree outside position `i` have listings that agree outside line `i + 1`. */
  lemma ListingAgrees(a: seq<Task>, b: seq<Task>, i: nat)
    requires |a| == |b| && i < |a|
    requires forall k :: 0 <= k < |a| && k != i ==> a[k] == b[k]
    ensures forall k :: 0 <= k < |Listing(a)| && k != i + 1 ==> Listing(a)[k] == Listing(b)[k]
  {
    forall k | 1 <= k < |Listing(a)| && k != i + 1
      ensures Listing(a)[k] == Listing(b)[k]
    {
      assert a[k - 1] == b[k - 1];
    }
  }

  /**
   * After removing task `i`, the listing keeps the lines before it, drops its
   * line, and shows every later task one position earlier.
   */
  lemma ListingAfterRemove(ts: seq<Task>, i: nat)
    requires i < |ts|
    ensures |Listing(Removed(ts, i))| == |Listing(ts)| - 1
    ensures forall k :: 0 <= k <= i ==> Listing(Removed(ts, i))[k] == Listing(ts)[k]
    ensures forall k :: i < k < |ts| ==> Listing(Removed(ts, i))[k] == FormatLine(k - 1, ts[k])
  {
    var r := Removed(ts, i);
    forall k | 1 <= k <= i
      ensures Listing(r)[k] == Listing(ts)[k]
    {
      assert r[k - 1] == ts[k - 1];
    }
    forall k | i < k < |ts|
      ensures Listing(r)[k] == FormatLine(k - 1, ts[k])
    {
      assert r[k - 1] == ts[k];
    }
  }

  /** The list built by adding `labels` one by one to `ts`. */
  function AddAll(ts: seq<Task>, labels: seq<string>): (r: seq<Task>)
    decreases |labels|
  {
    if labels == [] then ts else AddAll(Added(ts, labels[0]), labels[1..])
  }

  /** Adding to an empty list and listing it shows every label, unmarked, in insertion order. */
  lemma ListingAfterAdds(labels: seq<string>)
    ensures |Listing(AddAll([], labels))| == |labels| + 1
    ensures forall k :: 0 <= k < |labels| ==>
      Listing(AddAll([], labels))[k + 1] == FormatLine(k, Task(labels[k], false))
  {
    var ts := AddAll([], labels);
    AddAllAppends([], labels);
    forall k | 0 <= k < |labels|
      ensures Listing(ts)[k + 1] == FormatLine(k, Task(labels[k], false))
    {
      assert ts[0 + k] == Task(labels[k], false);
    }
  }

  /** Adding labels one by one appends them, unmarked and in order. */
  lemma {:induction false} AddAllAppends(ts: seq<Task>, labels: seq<string>)
    ensures |AddAll(ts, labels)| == |ts| + |labels|
    ensures AddAll(ts, labels)[..|ts|] == ts
    ensures forall k :: 0 <= k < |labels| ==> AddAll(ts, labels)[|ts| + k] == Task(labels[k], false)
    decreases |labels|
  {
    if labels != [] {
      var next := Added(ts, labels[0]);
      AddAllAppends(next, labels[1..]);
      assert AddAll(ts, labels)[..|next|][..|ts|] == ts;
      forall k | 0 <= k < |labels|
        ensures AddAll(ts, labels)[|ts| + k] == Task(labels[k], false)
      {
        if k > 0 {
          assert AddAll(ts, labels)[|next| + (k - 1)] == Task(labels[1..][k - 1], false);
        } else {
          assert AddAll(ts, labels)[..|next|][|ts|] == Task(labels[0], false);
        }
      }
    }
  }

  /** Adding "buy milk" to the empty list lists it unchecked as task 1. */
  lemma BuyMilkListing()
    ensures Listing(Added([], "buy milk")) == [Header, "1. [ ] buy milk"]
  {
    assert DecimalString(1) == "1";
    OneTaskListing(Task("buy milk", false));
    assert [] + [Task("buy milk", false)] == [Task("buy milk", false)];
    assert FormatLine(0, Task("buy milk", false)) == "1" + ". [" + " " + "] " + "buy milk";
    assert "1" + ". [" + " " + "] " + "buy milk" == "1. [ ] buy milk";
  }

  /** Marking task 1 of that list then shows it checked. */
  lemma BuyMilkMarkedListing()
    ensures Listing(Marked([Task("buy milk", false)], 0)) == [Header, "1. [X] buy milk"]
  {
    assert DecimalString(1) == "1";
    OneTaskListing(Task("buy milk", true));
    assert Marked([Task("buy milk", false)], 0) == [Task("buy milk", true)];
    assert FormatLine(0, Task("buy milk", true)) == "1" + ". [" + "X" + "] " + "buy milk";
    assert "1" + ". [" + "X" + "] " + "buy milk" == "1. [X] buy milk";
  }

  /** With "a" then "b" added, removing task 1 leaves "b" listed as task 1. */
  lemma RemoveFirstListing()
    ensures Listing(Removed([Task("a", false), Task("b", false)], 0)) == [Header, "1. [ ] b"]
  {
    assert DecimalString(1) == "1";
    OneTaskListing(Task("b", false));
    assert Removed([Task("a", false), Task("b", false)], 0) == [Task("b", false)];
    assert FormatLine(0, Task("b", false)) == "1" + ". [" + " " + "] " + "b";
    assert "1" + ". [" + " " + "] " + "b" == "1. [ ] b";
  }

  lemma OneTaskListing(t: Task)
    ensures Listing([t]) == [Header, FormatLine(0, t)]
  {
    assert [t][..0] == [];
  }
}
