/**
 * The store: the tasks file as the state of an object, and the operations
 * that each load the list from it, change the loaded list, and write it
 * back only when the change succeeded.
 */
module Store {
  import opened Wrappers
  import opened TaskList

  class TaskStore {
    /** The contents of the tasks file. */
    var file: FileState
    /** How many times the file has been written. */
    var writes: nat

    constructor (initial: FileState)
      ensures file == initial && writes == 0
    {
      file := initial;
      writes := 0;
    }

    /** Creates the file holding the empty list when it does not exist; an existing file is left alone. */
    method Initialize() returns (out: seq<Output>)
      modifies this
      ensures old(file).Missing? ==> file == Holds([]) && writes == old(writes) + 1 && out == [Log(InitializedMessage)]
      ensures !old(file).Missing? ==> file == old(file) && writes == old(writes) && out == []
    {
      out := [];
      if file.Missing? {
        Save([]);
        out := [Log(InitializedMessage)];
      }
    }

    /** Reads the list; a missing file gives the empty list silently, an unreadable one with an error. */
    method Load() returns (tasks: seq<Task>, out: seq<Output>)
      ensures tasks == Loaded(file) && out == LoadLog(file)
    {
      match file
      case Missing =>
        tasks, out := [], [];
      case Unreadable =>
        tasks, out := [], [Error(LoadErrorMessage)];
      case Holds(ts) =>
        tasks, out := ts, [];
    }

    /** Overwrites the file with `tasks`. */
    method Save(tasks: seq<Task>)
      modifies this
      ensures file == Holds(tasks) && writes == old(writes) + 1
    {
      file := Holds(tasks);
      writes := writes + 1;
    }

    /** Appends the unchecked task `text` to the loaded list and saves it. */
    method AddTask(text: string) returns (out: seq<Output>)
      modifies this
      ensures file == Holds(Added(Loaded(old(file)), text))
      ensures writes == old(writes) + 1
      ensures out == LoadLog(old(file)) + [Log(AddedMessage)]
    {
      var tasks, log := Load();
      tasks := tasks + [Task(text, false)];
      Save(tasks);
      out := log + [Log(AddedMessage)];
    }

    /** Prints the header and one numbered line per task, in list order. */
    method ViewTasks() returns (out: seq<Output>)
      ensures out == LoadLog(file) + Logs(Listing(Loaded(file)))
    {
      var tasks, log := Load();
      out := log + [Log(Header)];
      assert Listing(tasks)[..1] == [Header];
      var i := 0;
      while i < |tasks|
        invariant 0 <= i <= |tasks|
        invariant out == log + Logs(Listing(tasks)[..i + 1])
      {
        ListingLogsStep(log, tasks, i);
        out := out + [Log(FormatLine(i, tasks[i]))];
        i := i + 1;
      }
      assert Listing(tasks)[..i + 1] == Listing(tasks);
    }

    /**
     * Completes the task at `index` when it is in range and saves; otherwise
     * reports an invalid index and neither changes nor writes the file.
     */
    method MarkTaskAsComplete(index: Option<int>) returns (out: seq<Output>)
      modifies this
      ensures ValidIndex(Loaded(old(file)), index) ==>
        file == Holds(Marked(Loaded(old(file)), index.value)) && writes == old(writes) + 1 &&
        out == LoadLog(old(file)) + [Log(MarkedMessage)]
      ensures !ValidIndex(Loaded(old(file)), index) ==>
        file == old(file) && writes == old(writes) &&
        out == LoadLog(old(file)) + [Error(InvalidIndexMessage)]
    {
      var tasks, log := Load();
      if index.Some? && index.value >= 0 && index.value < |tasks| {
        tasks := tasks[index.value := tasks[index.value].(completed := true)];
        Save(tasks);
        out := log + [Log(MarkedMessage)];
      } else {
        out := log + [Error(InvalidIndexMessage)];
      }
    }

    /**
     * Deletes the task at `index` when it is in range and saves; otherwise
     * reports an invalid index and neither changes nor writes the file.
     */
    method RemoveTask(index: Option<int>) returns (out: seq<Output>)
      modifies this
      ensures ValidIndex(Loaded(old(file)), index) ==>
        file == Holds(Removed(Loaded(old(file)), index.value)) && writes == old(writes) + 1 &&
        out == LoadLog(old(file)) + [Log(RemovedMessage)]
      ensures !ValidIndex(Loaded(old(file)), index) ==>
        file == old(file) && writes == old(writes) &&
        out == LoadLog(old(file)) + [Error(InvalidIndexMessage)]
    {
      var tasks, log := Load();
      if index.Some? && index.value >= 0 && index.value < |tasks| {
        tasks := tasks[..index.value] + tasks[index.value + 1..];
        Save(tasks);
        out := log + [Log(RemovedMessage)];
      } else {
        out := log + [Error(InvalidIndexMessage)];
      }
    }
  }
}
