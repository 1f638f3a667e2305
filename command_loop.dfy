/**
 * The interactive session: each input line is read either as a command
 * (matched case-insensitively) or as the argument a command asked for, and
 * the session ends on "exit" or when the input runs out.
 */
module CommandLoop {
  import opened Wrappers
  import opened JsNumbers
  import opened TaskList
  import opened Store

  const Welcome := "Welcome to Task Manager!"
  const CommandQuestion := "Enter command (add/view/mark/remove/exit): "
  const TaskQuestion := "Enter task: "
  const MarkQuestion := "Enter task index to mark as complete: "
  const RemoveQuestion := "Enter task index to remove: "
  const InvalidCommandMessage := "Invalid command!"

  /**
   * `toLowerCase` on one character, for A-Z and for KELVIN SIGN (U+212A),
   * whose lower case is 'k'. Every other character is kept: its JavaScript
   * lower case is not an ASCII letter, so it cannot change which command a
   * line matches.
   */
  function LowerChar(c: char): char
  {
    if 'A' <= c <= 'Z' then (c as int - 'A' as int + 'a' as int) as char
    else if c == '\U{212A}' then 'k'
    else c
  }

  function ToLower(s: string): (r: string)
    ensures |r| == |s| && forall k :: 0 <= k < |s| ==> r[k] == LowerChar(s[k])
  {
    if s == [] then [] else [LowerChar(s[0])] + ToLower(s[1..])
  }

  datatype Command = AddCommand | ViewCommand | MarkCommand | RemoveCommand | ExitCommand | UnknownCommand

  /** The command a line names once lower-cased. */
  function Classify(line: string): Command
  {
    var command := ToLower(line);
    if command == "add" then AddCommand
    else if command == "view" then ViewCommand
    else if command == "mark" then MarkCommand
    else if command == "remove" then RemoveCommand
    else if command == "exit" then ExitCommand
    else UnknownCommand
  }

  /** The argument line a command is waiting for. */
  datatype Argument = TaskText | MarkIndex | RemoveIndex

  datatype Mode = AwaitingCommand | AwaitingArgument(argument: Argument) | Closed

  /** The state of a session: what the next line is read as, and the tasks file. */
  datatype Config = Config(mode: Mode, file: FileState)

  /** The 0-based index a typed argument denotes: its `parseInt` value minus one; NaN stays NaN. */
  function ArgumentIndex(line: string): (index: Option<int>)
    ensures ParseInt(line).None? ==> index.None?
    ensures ParseInt(line).Some? ==> index == Some(ParseInt(line).value - 1)
  {
    match ParseInt(line)
    case None => None
    case Some(n) => Some(n - 1)
  }

  /** What one input line does to the session, and what the program writes in answer. */
  function Step(c: Config, line: string): (Config, seq<Output>)
  {
    match c.mode
    case Closed => (c, [])
    case AwaitingCommand => CommandStep(c.file, line)
    case AwaitingArgument(argument) => ArgumentStep(argument, c.file, line)
  }

  /** A line read as a command: ask for its argument, list the tasks, close, or report an unknown command. */
  function CommandStep(f: FileState, line: string): (Config, seq<Output>)
  {
    match Classify(line)
    case AddCommand => (Config(AwaitingArgument(TaskText), f), [Prompt(TaskQuestion)])
    case ViewCommand => (Config(AwaitingCommand, f), LoadLog(f) + Logs(Listing(Loaded(f))) + [Prompt(CommandQuestion)])
    case MarkCommand => (Config(AwaitingArgument(MarkIndex), f), [Prompt(MarkQuestion)])
    case RemoveCommand => (Config(AwaitingArgument(RemoveIndex), f), [Prompt(RemoveQuestion)])
    case ExitCommand => (Config(Closed, f), [])
    case UnknownCommand => (Config(AwaitingCommand, f), [Log(InvalidCommandMessage), Prompt(CommandQuestion)])
  }

  /** A line read as the argument of add, mark or remove; the session then waits for a command again. */
  function ArgumentStep(argument: Argument, f: FileState, line: string): (Config, seq<Output>)
  {
    match argument
    case TaskText => AddStep(f, line)
    case MarkIndex => MarkStep(f, ArgumentIndex(line))
    case RemoveIndex => RemoveStep(f, ArgumentIndex(line))
  }

  function AddStep(f: FileState, line: string): (Config, seq<Output>)
  {
    (Config(AwaitingCommand, Holds(Added(Loaded(f), line))), LoadLog(f) + [Log(AddedMessage), Prompt(CommandQuestion)])
  }

  function MarkStep(f: FileState, index: Option<int>): (Config, seq<Output>)
  {
    if ValidIndex(Loaded(f), index) then
      (Config(AwaitingCommand, Holds(Marked(Loaded(f), index.value))), LoadLog(f) + [Log(MarkedMessage), Prompt(CommandQuestion)])
    else
      (Config(AwaitingCommand, f), LoadLog(f) + [Error(InvalidIndexMessage), Prompt(CommandQuestion)])
  }

  function RemoveStep(f: FileState, index: Option<int>): (Config, seq<Output>)
  {
    if ValidIndex(Loaded(f), index) then
      (Config(AwaitingCommand, Holds(Removed(Loaded(f), index.value))), LoadLog(f) + [Log(RemovedMessage), Prompt(CommandQuestion)])
    else
      (Config(AwaitingCommand, f), LoadLog(f) + [Error(InvalidIndexMessage), Prompt(CommandQuestion)])
  }

  /** Feeds `lines` to the session one at a time until it is closed or the lines run out. */
  function Run(c: Config, lines: seq<string>): (Config, seq<Output>)
    decreases |lines|
  {
    if lines == [] || c.mode == Closed then (c, [])
    else
      var next := Step(c, lines[0]);
      var rest := Run(next.0, lines[1..]);
      (rest.0, next.1 + rest.1)
  }

  /**
   * A whole program run on `input` against the tasks file `file`: create the
   * file if it is missing, greet, ask for a command, then run the session.
   */
  function Session(file: FileState, input: seq<string>): (Config, seq<Output>)
  {
    var start := if file.Missing? then Holds([]) else file;
    var init := if file.Missing? then [Log(InitializedMessage)] else [];
    var run := Run(Config(AwaitingCommand, start), input);
    (run.0, init + [Log(Welcome), Prompt(CommandQuestion)] + run.1)
  }

  /** How many times one input line makes the program write the tasks file. */
  function StepWrites(c: Config, line: string): nat
  {
    match c.mode
    case AwaitingArgument(argument) => ArgumentWrites(argument, c.file, line)
    case _ => 0
  }

  /** An added task is always saved; a mark or remove is saved only when its index passes the bounds check. */
  function ArgumentWrites(argument: Argument, f: FileState, line: string): nat
  {
    if argument == TaskText || ValidIndex(Loaded(f), ArgumentIndex(line)) then 1 else 0
  }

  /** How many times feeding `lines` to the session writes the tasks file. */
  function RunWrites(c: Config, lines: seq<string>): nat
    decreases |lines|
  {
    if lines == [] || c.mode == Closed then 0
    else StepWrites(c, lines[0]) + RunWrites(Step(c, lines[0]).0, lines[1..])
  }

  /** How many times a whole program run writes the tasks file, counting its creation. */
  function SessionWrites(file: FileState, input: seq<string>): nat
  {
    var start := if file.Missing? then Holds([]) else file;
    (if file.Missing? then 1 else 0) + RunWrites(Config(AwaitingCommand, start), input)
  }

  /** Running two stretches of input one after the other ends where running them together ends. */
  lemma {:induction false} RunConcat(c: Config, a: seq<string>, b: seq<string>)
    ensures Run(c, a + b).0 == Run(Run(c, a).0, b).0
    decreases |a|
  {
    if a == [] {
      assert a + b == b;
    } else if c.mode != Closed {
      assert (a + b)[0] == a[0] && (a + b)[1..] == a[1..] + b;
      RunFirst(c, a);
      RunFirst(c, a + b);
      RunConcat(Step(c, a[0]).0, a[1..], b);
    }
  }

  /** The first line of a session still open is taken by one step. */
  lemma RunFirst(c: Config, lines: seq<string>)
    requires lines != [] && c.mode != Closed
    ensures Run(c, lines).0 == Run(Step(c, lines[0]).0, lines[1..]).0
    ensures Run(c, lines).1 == Step(c, lines[0]).1 + Run(Step(c, lines[0]).0, lines[1..]).1
    ensures RunWrites(c, lines) == StepWrites(c, lines[0]) + RunWrites(Step(c, lines[0]).0, lines[1..])
  {
  }

  /** Commands are matched whatever their case: lines equal up to case dispatch alike. */
  lemma DispatchIgnoresCase(a: string, b: string)
    requires |a| == |b| && forall k :: 0 <= k < |a| ==> LowerChar(a[k]) == LowerChar(b[k])
    ensures Classify(a) == Classify(b)
  {
    assert ToLower(a) == ToLower(b);
  }

  /** "add" and "view" name add and view. */
  lemma AddViewNames()
    ensures Classify("add") == AddCommand && Classify("view") == ViewCommand
  {
    assert ToLower("add") == "add";
    assert ToLower("view") == "view";
  }

  /** "mark" and "remove" name mark and remove. */
  lemma MarkRemoveNames()
    ensures Classify("mark") == MarkCommand && Classify("remove") == RemoveCommand
  {
    assert ToLower("mark") == "mark";
    assert ToLower("remove") == "remove";
  }

  /** "exit", "EXIT" and "Exit" all name exit. */
  lemma ExitInAnyCase()
    ensures Classify("exit") == ExitCommand && Classify("EXIT") == ExitCommand && Classify("Exit") == ExitCommand
  {
    assert ToLower("exit") == "exit";
    assert ToLower("EXIT") == "exit";
    assert ToLower("Exit") == "exit";
  }

  /** "View" names view, "MARK" names mark, and "mar" followed by KELVIN SIGN lower-cases to "mark". */
  lemma MixedCaseCommands()
    ensures Classify("View") == ViewCommand && Classify("MARK") == MarkCommand && Classify("mar\U{212A}") == MarkCommand
  {
    assert ToLower("View") == "view";
    assert ToLower("MARK") == "mark";
    assert ToLower("mar\U{212A}") == "mark";
  }

  /** Neither a synonym nor a command with a leading blank is recognised. */
  lemma UnrecognisedCommands()
    ensures Classify("list") == UnknownCommand && Classify(" add") == UnknownCommand
  {
    assert ToLower("list") == "list";
    assert ToLower(" add") == " add";
  }

  /** Only argument lines touch the file: a command line alone never changes it nor writes it. */
  lemma CommandKeepsFile(f: FileState, line: string)
    ensures Step(Config(AwaitingCommand, f), line).0.file == f
    ensures StepWrites(Config(AwaitingCommand, f), line) == 0
  {
  }

  /** After "exit" (in any case) the session is closed: nothing more is read, written or saved. */
  lemma {:induction false} ExitEndsSession(f: FileState, line: string, rest: seq<string>)
    requires ToLower(line) == "exit"
    ensures Run(Config(AwaitingCommand, f), [line] + rest) == (Config(Closed, f), [])
    ensures RunWrites(Config(AwaitingCommand, f), [line] + rest) == 0
  {
    var c, lines := Config(AwaitingCommand, f), [line] + rest;
    assert lines[0] == line && lines[1..] == rest;
    assert Step(c, line) == (Config(Closed, f), []);
    RunFirst(c, lines);
  }

  /** An unrecognised command is reported and then ignored: the rest of the session runs as if it were absent. */
  lemma {:induction false} UnknownCommandIgnored(f: FileState, line: string, rest: seq<string>)
    requires Classify(line) == UnknownCommand
    ensures Run(Config(AwaitingCommand, f), [line] + rest).0 == Run(Config(AwaitingCommand, f), rest).0
    ensures Run(Config(AwaitingCommand, f), [line] + rest).1 ==
      [Log(InvalidCommandMessage), Prompt(CommandQuestion)] + Run(Config(AwaitingCommand, f), rest).1
    ensures RunWrites(Config(AwaitingCommand, f), [line] + rest) == RunWrites(Config(AwaitingCommand, f), rest)
  {
    var lines := [line] + rest;
    assert lines[0] == line && lines[1..] == rest;
  }

  /** The typed index is 1-based: the number `n` as typed denotes position `n - 1` (so "0" denotes -1). */
  lemma TypedIndexIsOneBased(n: nat)
    ensures ArgumentIndex(DecimalString(n)) == Some(n - 1)
  {
    ParseIntOfDecimal(n, []);
    assert DecimalString(n) + [] == DecimalString(n);
  }

  /** Typing the number of a listed task at the mark prompt completes exactly that task. */
  lemma MarkByNumber(f: FileState, n: nat)
    requires 1 <= n <= |Loaded(f)|
    ensures Step(Config(AwaitingArgument(MarkIndex), f), DecimalString(n)).0 ==
      Config(AwaitingCommand, Holds(Marked(Loaded(f), n - 1)))
  {
    TypedIndexIsOneBased(n);
  }

  /** Typing the number of a listed task at the remove prompt removes exactly that task. */
  lemma RemoveByNumber(f: FileState, n: nat)
    requires 1 <= n <= |Loaded(f)|
    ensures Step(Config(AwaitingArgument(RemoveIndex), f), DecimalString(n)).0 ==
      Config(AwaitingCommand, Holds(Removed(Loaded(f), n - 1)))
  {
    TypedIndexIsOneBased(n);
  }

  /** A whole line of the listing typed back as an index selects the task that line shows. */
  lemma ListingLineSelectsItsTask(ts: seq<Task>, k: nat)
    requires k < |ts|
    ensures ArgumentIndex(Listing(ts)[k + 1]) == Some(k) && ValidIndex(ts, Some(k))
  {
    FormatLineNumber(k, ts[k]);
  }

  /**
   * An index out of range, or an argument that is not a number at all, is
   * reported and leaves the file exactly as it was: not even rewritten.
   */
  lemma BadIndexKeepsFile(f: FileState, argument: Argument, line: string)
    requires argument != TaskText
    requires !ValidIndex(Loaded(f), ArgumentIndex(line))
    ensures Step(Config(AwaitingArgument(argument), f), line) ==
      (Config(AwaitingCommand, f), LoadLog(f) + [Error(InvalidIndexMessage), Prompt(CommandQuestion)])
    ensures StepWrites(Config(AwaitingArgument(argument), f), line) == 0
  {
  }

  /** A negative number denotes a negative position: a bad index whatever the list. */
  lemma NegativeIsBadIndex(ts: seq<Task>, n: nat)
    ensures ArgumentIndex("-" + DecimalString(n)) == Some(-(n as int) - 1)
    ensures !ValidIndex(ts, ArgumentIndex("-" + DecimalString(n)))
  {
    ParseIntOfNegative(n);
  }

  /** Text without digits is NaN, which no bounds check lets through. */
  lemma NonNumericIndex(ts: seq<Task>)
    ensures !ValidIndex(ts, ArgumentIndex("abc"))
  {
    assert !IsDigit('a', 10) && !IsDigit('b', 10) && !IsDigit('c', 10);
    ParseIntWithoutDigits("abc");
  }

  /**
   * With no tasks file, the program creates one holding the empty list, and
   * a view command followed by an exit command ("view" then "exit", in any
   * case) lists only the header.
   */
  lemma FreshStartViewsHeaderOnly(view: string, exit: string)
    requires Classify(view) == ViewCommand && Classify(exit) == ExitCommand
    ensures Session(Missing, [view, exit]) ==
      (Config(Closed, Holds([])),
       [Log(InitializedMessage), Log(Welcome), Prompt(CommandQuestion), Log(Header), Prompt(CommandQuestion)])
  {
    ViewThenExit(Holds([]), view, exit);
    assert Listing([]) == [Header];
    assert Logs([Header]) == [Log(Header)];
    assert LoadLog(Holds([])) + Logs(Listing([])) + [Prompt(CommandQuestion)] == [Log(Header), Prompt(CommandQuestion)];
    assert [Log(InitializedMessage)] + [Log(Welcome), Prompt(CommandQuestion)] + [Log(Header), Prompt(CommandQuestion)] ==
      [Log(InitializedMessage), Log(Welcome), Prompt(CommandQuestion), Log(Header), Prompt(CommandQuestion)];
  }

  /**
   * A whole session: add "buy milk", mark task 1, list, exit (each command in
   * any case, such as "MARK"); the file then holds "buy milk" completed.
   */
  lemma BuyMilkSession(add: string, mark: string, view: string, exit: string)
    requires Classify(add) == AddCommand && Classify(mark) == MarkCommand
    requires Classify(view) == ViewCommand && Classify(exit) == ExitCommand
    ensures Session(Missing, [add, "buy milk"] + [mark, "1"] + [view, exit]).0 ==
      Config(Closed, Holds([Task("buy milk", true)]))
  {
    var milk := Task("buy milk", false);
    AddThenText(Holds([]), add, "buy milk");
    assert Added([], "buy milk") == [milk];
    MarkThenNumber(Holds([milk]), mark, 1);
    assert DecimalString(1) == "1";
    assert Marked([milk], 0) == [Task("buy milk", true)];
    ViewThenExit(Holds([Task("buy milk", true)]), view, exit);
    RunThree(Config(AwaitingCommand, Holds([])), [add, "buy milk"], [mark, "1"], [view, exit]);
  }

  /** Three stretches of input run one after the other. */
  lemma RunThree(c: Config, a: seq<string>, b: seq<string>, d: seq<string>)
    ensures Run(c, a + b + d).0 == Run(Run(Run(c, a).0, b).0, d).0
  {
    RunConcat(c, a + b, d);
    RunConcat(c, a, b);
  }

  /** Two lines fed to a session that is open: the first is one step, the second is run from where it leaves. */
  lemma RunPair(c: Config, x: string, y: string)
    requires c.mode != Closed
    ensures Run(c, [x, y]) == (Run(Step(c, x).0, [y]).0, Step(c, x).1 + Run(Step(c, x).0, [y]).1)
  {
    RunFirst(c, [x, y]);
    assert [x, y][1..] == [y];
  }

  /** One line fed to a session that is open is one step. */
  lemma RunSingle(c: Config, y: string)
    requires c.mode != Closed
    ensures Run(c, [y]) == Step(c, y)
  {
    RunFirst(c, [y]);
    assert [y][1..] == [];
    assert Step(c, y).1 + [] == Step(c, y).1;
  }

  /** An add command followed by a line appends that line, unchecked, to the list. */
  lemma AddThenText(f: FileState, add: string, text: string)
    requires Classify(add) == AddCommand
    ensures Run(Config(AwaitingCommand, f), [add, text]).0 ==
      Config(AwaitingCommand, Holds(Added(Loaded(f), text)))
  {
    var c := Config(AwaitingCommand, f);
    RunPair(c, add, text);
    RunSingle(Step(c, add).0, text);
  }

  /** The input that answers an add command with each of `labels` in turn. */
  function AddInput(add: string, labels: seq<string>): (lines: seq<string>)
    ensures |lines| == 2 * |labels|
    decreases |labels|
  {
    if labels == [] then [] else [add, labels[0]] + AddInput(add, labels[1..])
  }

  /** Adding labels one by one in a session leaves the file holding the list `AddAll` builds. */
  lemma {:induction false} AddsInSession(ts: seq<Task>, add: string, labels: seq<string>)
    requires Classify(add) == AddCommand
    ensures Run(Config(AwaitingCommand, Holds(ts)), AddInput(add, labels)).0 ==
      Config(AwaitingCommand, Holds(AddAll(ts, labels)))
    decreases |labels|
  {
    if labels != [] {
      var c := Config(AwaitingCommand, Holds(ts));
      AddThenText(Holds(ts), add, labels[0]);
      RunConcat(c, [add, labels[0]], AddInput(add, labels[1..]));
      AddsInSession(Added(ts, labels[0]), add, labels[1..]);
    }
  }

  /** A mark command followed by the number of a listed task completes that task. */
  lemma MarkThenNumber(f: FileState, mark: string, n: nat)
    requires Classify(mark) == MarkCommand && 1 <= n <= |Loaded(f)|
    ensures Run(Config(AwaitingCommand, f), [mark, DecimalString(n)]).0 ==
      Config(AwaitingCommand, Holds(Marked(Loaded(f), n - 1)))
  {
    var c := Config(AwaitingCommand, f);
    RunPair(c, mark, DecimalString(n));
    RunSingle(Step(c, mark).0, DecimalString(n));
    MarkByNumber(f, n);
  }

  /** A view command lists the tasks and changes nothing; an exit command then closes the session without a word. */
  lemma ViewThenExit(f: FileState, view: string, exit: string)
    requires Classify(view) == ViewCommand && Classify(exit) == ExitCommand
    ensures Run(Config(AwaitingCommand, f), [view, exit]) ==
      (Config(Closed, f), LoadLog(f) + Logs(Listing(Loaded(f))) + [Prompt(CommandQuestion)])
  {
    var c := Config(AwaitingCommand, f);
    RunPair(c, view, exit);
    RunSingle(c, exit);
    assert Step(c, view).1 + [] == Step(c, view).1;
  }

  /** Handles a line read as a command: the `switch` of `prompt` on the lower-cased line. */
  method Dispatch(store: TaskStore, line: string) returns (mode: Mode, said: seq<Output>)
    ensures (Config(mode, store.file), said) == Step(Config(AwaitingCommand, store.file), line)
  {
    match Classify(line) {
      case AddCommand =>
        mode, said := AwaitingArgument(TaskText), [Prompt(TaskQuestion)];
      case ViewCommand =>
        said := store.ViewTasks();
        mode, said := AwaitingCommand, said + [Prompt(CommandQuestion)];
      case MarkCommand =>
        mode, said := AwaitingArgument(MarkIndex), [Prompt(MarkQuestion)];
      case RemoveCommand =>
        mode, said := AwaitingArgument(RemoveIndex), [Prompt(RemoveQuestion)];
      case ExitCommand =>
        mode, said := Closed, [];
      case UnknownCommand =>
        mode, said := AwaitingCommand, [Log(InvalidCommandMessage), Prompt(CommandQuestion)];
    }
  }

  /**
   * Handles the line a command asked for: the task text for add, the 1-based
   * index for mark and remove. The session then waits for a command again.
   */
  method Answer(store: TaskStore, argument: Argument, line: string) returns (said: seq<Output>)
    modifies store
    ensures (Config(AwaitingCommand, store.file), said) == ArgumentStep(argument, old(store.file), line)
    ensures store.writes == old(store.writes) + ArgumentWrites(argument, old(store.file), line)
  {
    match argument {
      case TaskText =>
        said := AnswerTask(store, line);
      case MarkIndex =>
        said := AnswerMark(store, line);
      case RemoveIndex =>
        said := AnswerRemove(store, line);
    }
  }

  /** The task text typed after "add": the store appends it, then the command question follows. */
  method AnswerTask(store: TaskStore, line: string) returns (said: seq<Output>)
    modifies store
    ensures (Config(AwaitingCommand, store.file), said) == AddStep(old(store.file), line)
    ensures store.writes == old(store.writes) + 1
  {
    said := store.AddTask(line);
    said := said + [Prompt(CommandQuestion)];
    assert said == LoadLog(old(store.file)) + [Log(AddedMessage), Prompt(CommandQuestion)];
  }

  /** The index typed after "mark": `parseInt` of the line, less one, goes to the store. */
  method AnswerMark(store: TaskStore, line: string) returns (said: seq<Output>)
    modifies store
    ensures (Config(AwaitingCommand, store.file), said) == MarkStep(old(store.file), ArgumentIndex(line))
    ensures store.writes == old(store.writes) + (if ValidIndex(Loaded(old(store.file)), ArgumentIndex(line)) then 1 else 0)
  {
    var index := ArgumentIndex(line);
    ghost var log := LoadLog(store.file);
    ghost var valid := ValidIndex(Loaded(store.file), index);
    said := store.MarkTaskAsComplete(index);
    ghost var reply := if valid then Log(MarkedMessage) else Error(InvalidIndexMessage);
    assert said == log + [reply];
    said := said + [Prompt(CommandQuestion)];
    assert said == log + [reply, Prompt(CommandQuestion)];
  }

  /** The index typed after "remove": `parseInt` of the line, less one, goes to the store. */
  method AnswerRemove(store: TaskStore, line: string) returns (said: seq<Output>)
    modifies store
    ensures (Config(AwaitingCommand, store.file), said) == RemoveStep(old(store.file), ArgumentIndex(line))
    ensures store.writes == old(store.writes) + (if ValidIndex(Loaded(old(store.file)), ArgumentIndex(line)) then 1 else 0)
  {
    var index := ArgumentIndex(line);
    ghost var log := LoadLog(store.file);
    ghost var valid := ValidIndex(Loaded(store.file), index);
    said := store.RemoveTask(index);
    ghost var reply := if valid then Log(RemovedMessage) else Error(InvalidIndexMessage);
    assert said == log + [reply];
    said := said + [Prompt(CommandQuestion)];
    assert said == log + [reply, Prompt(CommandQuestion)];
  }

  /**
   * One re-entry of `prompt`: a line read while the session waits for a
   * command goes to the `switch`, and a line read while it waits for an
   * argument goes to the callback of that question.
   */
  method Handle(store: TaskStore, mode: Mode, line: string) returns (next: Mode, said: seq<Output>)
    requires mode != Closed
    modifies store
    ensures (Config(next, store.file), said) == Step(Config(mode, old(store.file)), line)
    ensures store.writes == old(store.writes) + StepWrites(Config(mode, old(store.file)), line)
  {
    if mode == AwaitingCommand {
      next, said := Dispatch(store, line);
    } else {
      said := Answer(store, mode.argument, line);
      next := AwaitingCommand;
    }
  }

  /**
   * The program itself: create a missing tasks file, greet, ask for a
   * command, then serve the input lines. Ends with the mode the session is in
   * and everything written.
   */
  method RunSession(store: TaskStore, input: seq<string>) returns (mode: Mode, out: seq<Output>)
    modifies store
    ensures Config(mode, store.file) == Session(old(store.file), input).0
    ensures out == Session(old(store.file), input).1
    ensures store.writes == old(store.writes) + SessionWrites(old(store.file), input)
  {
    out := store.Initialize();
    out := out + [Log(Welcome), Prompt(CommandQuestion)];
    var said: seq<Output>;
    mode, said := Serve(store, input);
    out := out + said;
  }

  /**
   * The callbacks that re-enter `prompt` after each command, as one loop over
   * the input lines that stops at exit or at the end of input; every command
   * goes to the store.
   */
  method Serve(store: TaskStore, input: seq<string>) returns (mode: Mode, out: seq<Output>)
    modifies store
    ensures (Config(mode, store.file), out) == Run(Config(AwaitingCommand, old(store.file)), input)
    ensures store.writes == old(store.writes) + RunWrites(Config(AwaitingCommand, old(store.file)), input)
  {
    mode, out := AwaitingCommand, [];
    ghost var c := Config(mode, store.file);
    ghost var goal, goalWrites, initialWrites := Run(c, input), RunWrites(c, input), store.writes;
    var i := 0;
    while i < |input| && mode != Closed
      invariant 0 <= i <= |input| && c == Config(mode, store.file)
      invariant Run(c, input[i..]).0 == goal.0
      invariant out + Run(c, input[i..]).1 == goal.1
      invariant store.writes + RunWrites(c, input[i..]) == initialWrites + goalWrites
    {
      ghost var writesBefore := store.writes;
      var said: seq<Output>;
      mode, said := Handle(store, mode, input[i]);
      ghost var after := Config(mode, store.file);
      SessionLoopStep(c, after, input[i..], input[i + 1..], out, said, store.writes - writesBefore);
      c := after;
      out := out + said;
      i := i + 1;
    }
    assert Run(c, input[i..]) == (c, []);
    assert RunWrites(c, input[i..]) == 0;
    assert out + [] == out;
  }

  /**
   * One turn of the session loop, stated over Run: the step taken is the first
   * step of the remaining run, so the run that is left after it ends the same,
   * and what was written so far plus what is left to write is unchanged.
   */
  lemma SessionLoopStep(before: Config, after: Config, lines: seq<string>, rest: seq<string>,
                        out: seq<Output>, said: seq<Output>, written: int)
    requires lines != [] && lines[1..] == rest && before.mode != Closed
    requires Step(before, lines[0]) == (after, said) && written == StepWrites(before, lines[0])
    ensures Run(after, rest).0 == Run(before, lines).0
    ensures (out + said) + Run(after, rest).1 == out + Run(before, lines).1
    ensures written + RunWrites(after, rest) == RunWrites(before, lines)
  {
    RunFirst(before, lines);
    assert (out + said) + Run(after, rest).1 == out + (said + Run(after, rest).1);
  }
}
