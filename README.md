# Task manager, modelled in Dafny

The task manager is a small interactive command-line to-do list. On start it
creates the tasks file holding an empty list if the file does not exist, greets
the user, and then asks for commands one after the other:

- `add` asks for a label and appends an unchecked task.
- `view` prints `Tasks:` and one numbered line per task.
- `mark` and `remove` ask for a 1-based task number, check it against the list,
  and then complete or delete that task.
- `exit` closes the session.

Commands are matched after lower-casing. Every operation loads the list from the
file, changes the loaded list, and writes it back only when the change
succeeded.

The model has five modules:

- `Wrappers` (`wrappers.dfy`): `Option`. `None` also stands for JavaScript's
  NaN.
- `JsNumbers` (`js_numbers.dfy`): `parseInt` called without a radix, which reads
  the typed index, and the decimal rendering of the numbers in the listing.
- `TaskList` (`task_list.dfy`): the values.
  - `Task` is the stored record `{task, completed}`.
  - `FileState` is what the tasks file holds: missing, unreadable, or a list.
  - `Output` is a question, a `console.log` line or a `console.error` line.
  - Pure functions give the list after a mark (`Marked`) and after a remove
    (`Removed`), and the listing (`Listing`).
- `Store` (`task_store.dfy`): class `TaskStore`.
  - Its field `file` is the tasks file and its field `writes` counts the writes
    to it.
  - Its methods are the program's functions `initializeTasksFile`,
    `loadTasks`, `saveTasks`, `addTask`, `viewTasks`, `markTaskAsComplete` and
    `removeTask`.
- `CommandLoop` (`command_loop.dfy`): the command dispatch of `prompt`.
  - `Step` is a transition on a session state (`AwaitingCommand`,
    `AwaitingArgument(kind)`, `Closed`) plus the file. `Run` and `Session` are
    that transition applied to a sequence of input lines.
  - `Serve` is the program's loop. Each of its iterations is `Handle`, which
    does what one re-entry of `prompt` does, through the store, and the loop is
    proved equal to `Run`.
  - `RunSession` is the whole program: initialize, greet, then `Serve`. It is
    proved equal to `Session`.

The source comment above `initializeTasksFile` (taskManager.js:7) says the file
is initialized "if it's empty", but the code only tests whether the file exists.
The model follows the code. An existing empty file is not rewritten. Loading it
fails to parse, so it counts as unreadable.

## Model

| member | source | states |
|---|---|---|
| TaskList.Loaded | taskManager.js:27-39 | defines the list loading yields: the stored list, or the empty list for a missing or unreadable file; its round trip with saving is LoadAfterSave and ResaveIdempotent |
| TaskList.LoadLog | taskManager.js:32-37 | defines what loading reports: "Error loading tasks:" for an unreadable file only, a missing file being silent |
| TaskList.LoadAfterSave | taskManager.js:27-47 | loading what was just saved gives back exactly the saved list, with nothing reported |
| TaskList.ResaveIdempotent | taskManager.js:27-47 | saving the loaded list yields a file that loads silently, and saving the loaded list again leaves it unchanged; a missing or unreadable file becomes the empty list, a file holding a list is rewritten as it was |
| TaskList.ValidIndex | taskManager.js:66 | defines the bounds check 0 <= index < length that mark and remove share (line 77), with NaN failing it |
| TaskList.Added | taskManager.js:49-52 | adding keeps every earlier task in place and puts the unchecked new task last, one longer |
| TaskList.Marked | taskManager.js:66-67 | marking task i keeps the length and every label, completes task i, and leaves every other task as it was |
| TaskList.Removed | taskManager.js:77-78 | removing task i (splice of one element) shortens the list by one, keeps the tasks before i and moves each later task down one position |
| TaskList.MarkIdempotent | taskManager.js:66-67 | marking the same task twice gives the same list as marking it once |
| TaskList.RemovedTakesOne | taskManager.js:78 | the removed list is a permutation of the old list less exactly the task at i |
| TaskList.FormatLine | taskManager.js:60 | defines the line of task i: `${i + 1}. [X] label` or `${i + 1}. [ ] label`; its layout is proved in FormatLineShows and FormatLineNumber |
| TaskList.Listing | taskManager.js:56-61 | defines the listing, "Tasks:" then the line of each task in list order; what view promises about it is proved by Store.TaskStore.ViewTasks, ListingAfterMark, ListingAfterRemove and ListingAfterAdds |
| TaskList.FormatLineShows | taskManager.js:60 | a listing line is the number, ". [", 'X' exactly when the task is completed (else a blank), "] " and the label |
| TaskList.FormatLineNumber | taskManager.js:60 | the number that starts the line of 0-based task i reads back through parseInt as i + 1 |
| TaskList.ListingLogsStep | taskManager.js:59-60 | logging the line of task i after the first i + 1 listing lines gives the first i + 2 listing lines |
| TaskList.ListingAfterMark | taskManager.js:56-67 | after marking task i the listing differs only in line i + 1, which shows the task with [X] |
| TaskList.ListingAfterRemove | taskManager.js:56-78 | after removing task i the lines before it stay and every later task is listed one number lower |
| TaskList.AddAllAppends | taskManager.js:49-52 | adding labels one by one appends them in order, unchecked, after the unchanged earlier tasks |
| TaskList.ListingAfterAdds | taskManager.js:49-61 | after adding labels to an empty list, line k + 1 of the listing shows label k unchecked with number k + 1 |
| TaskList.BuyMilkListing | taskManager.js:49-61 | adding "buy milk" to the empty list lists "Tasks:", "1. [ ] buy milk" |
| TaskList.BuyMilkMarkedListing | taskManager.js:56-67 | marking that task lists "Tasks:", "1. [X] buy milk" |
| TaskList.RemoveFirstListing | taskManager.js:56-78 | removing the first of "a", "b" lists "Tasks:", "1. [ ] b" |
| JsNumbers.DecimalString | taskManager.js:60 | the rendering of a number in the template literal: only digits, no leading zero except for 0, and its digits denote the number |
| JsNumbers.ParseInt | taskManager.js:101 | defines `parseInt` with no radix: skip white space, optional sign, "0x" selects radix 16, longest digit run, NaN when there is none; its behaviour is proved by the ParseInt lemmas below |
| JsNumbers.TrimStart | taskManager.js:101 | parseInt's leading skip drops only white space and stops at the first character that is not white space |
| JsNumbers.DigitPrefix | taskManager.js:101 | parseInt reads the longest prefix made of digits of the radix |
| JsNumbers.ParseIntOfDecimal | taskManager.js:101 | parseInt of a rendered number followed by text that does not start with a digit (nor, when the number is 0, with 'x' or 'X', which would start a hexadecimal numeral) is that number |
| JsNumbers.ParseIntOfNegative | taskManager.js:101 | a '-' before the rendered number n reads as -n |
| JsNumbers.ParseIntOfMinus | taskManager.js:101 | a '-' before a magnitude (decimal digits, or "0x" and hexadecimal digits, with no white space or sign of its own) negates its value, and NaN stays NaN |
| JsNumbers.ParseIntSkipsSpace | taskManager.js:101 | leading white space does not change what parseInt reads |
| JsNumbers.ParseIntWithoutDigits | taskManager.js:101 | text without any decimal digit parses as NaN |
| JsNumbers.ParseIntOfHexRun | taskManager.js:101 | after "0x" or "0X" the digit run is read in radix 16 |
| JsNumbers.ParseIntOfBareHexPrefix | taskManager.js:101 | "0x" with no hexadecimal digit after it is NaN, not 0 |
| JsNumbers.ParseIntOfHex | taskManager.js:101 | "0x1A" reads as 26 |
| Store.TaskStore.Initialize | taskManager.js:8-17 | a missing file is created holding the empty list, with one write and the success message; an existing file is neither changed nor written |
| Store.TaskStore.Load | taskManager.js:27-39 | loading returns the loaded list and the load report and changes nothing |
| Store.TaskStore.Save | taskManager.js:41-47 | saving overwrites the file with the list and counts one write |
| Store.TaskStore.AddTask | taskManager.js:49-54 | the file afterwards holds the loaded list plus the unchecked new task at the end, written once, with the success message |
| Store.TaskStore.ViewTasks | taskManager.js:56-62 | the output is the load report followed by the listing of the loaded list, one console.log per line; the file is not touched |
| Store.TaskStore.MarkTaskAsComplete | taskManager.js:64-73 | for an index in range the file holds the marked list, written once; otherwise (out of range or NaN) the file and the write count are unchanged and "Invalid task index!" goes to console.error |
| Store.TaskStore.RemoveTask | taskManager.js:75-84 | for an index in range the file holds the list without that task, written once; otherwise the file and the write count are unchanged and "Invalid task index!" goes to console.error |
| CommandLoop.ToLower | taskManager.js:88 | lower-casing keeps the length and lower-cases each character |
| CommandLoop.Classify | taskManager.js:88-117 | defines the switch on the lower-cased line: add, view, mark, remove, exit, or the default case; DispatchIgnoresCase and the name lemmas state its behaviour |
| CommandLoop.ArgumentIndex | taskManager.js:101 | defines the index as parseInt minus one, NaN staying NaN; the 1-based reading is proved in TypedIndexIsOneBased, NegativeIsBadIndex and NonNumericIndex |
| CommandLoop.Step | taskManager.js:87-118 | defines one input line's effect: a command line goes through CommandStep, an argument line through ArgumentStep, and a closed session ignores it |
| CommandLoop.CommandStep | taskManager.js:88-117 | defines the switch: add, mark and remove ask for their argument, view lists and asks again, exit closes, anything else is "Invalid command!" |
| CommandLoop.ArgumentStep | taskManager.js:90-109 | defines the answer to an argument question: AddStep, MarkStep or RemoveStep, then the command question |
| CommandLoop.AddStep | taskManager.js:90-92 | defines the add answer: the file holds the loaded list with the task added |
| CommandLoop.MarkStep | taskManager.js:100-102 | defines the mark answer: the marked list when the index passes the bounds check, the file untouched and "Invalid task index!" otherwise |
| CommandLoop.RemoveStep | taskManager.js:106-108 | defines the remove answer: the list without the task when the index passes the bounds check, the file untouched and "Invalid task index!" otherwise |
| CommandLoop.StepWrites | taskManager.js:49-84 | defines how many saves one line causes: one for an added task, one for a mark or remove with a valid index, none otherwise |
| CommandLoop.RunWrites | taskManager.js:86-120 | defines the saves of a session stretch: the saves of each line up to exit or the end of input |
| CommandLoop.SessionWrites | taskManager.js:8-124 | defines the saves of a whole run: one for creating a missing file, then those of the session |
| CommandLoop.Run | taskManager.js:86-120 | defines a session over a sequence of lines, stopping at exit or when the lines run out; RunConcat, ExitEndsSession and UnknownCommandIgnored state its behaviour |
| CommandLoop.Session | taskManager.js:8-124 | defines a whole program run: create a missing file, greet, ask, then Run; RunSession is proved equal to it |
| CommandLoop.AddsInSession | taskManager.js:89-93 | answering add with each label in turn leaves the file holding the list with those labels added in order, unchecked |
| CommandLoop.DispatchIgnoresCase | taskManager.js:88 | two lines that agree up to case select the same command |
| CommandLoop.AddViewNames | taskManager.js:89-98 | "add" and "view" select add and view |
| CommandLoop.MarkRemoveNames | taskManager.js:99-110 | "mark" and "remove" select mark and remove |
| CommandLoop.ExitInAnyCase | taskManager.js:111-113 | "exit", "EXIT" and "Exit" all select exit |
| CommandLoop.MixedCaseCommands | taskManager.js:88 | "View" and "MARK" select view and mark, and so does "mar" followed by KELVIN SIGN, whose lower case is 'k' |
| CommandLoop.UnrecognisedCommands | taskManager.js:114-117 | "list" and " add" select no command |
| CommandLoop.CommandKeepsFile | taskManager.js:88-117 | a line read as a command never changes the file and never writes it |
| CommandLoop.ExitEndsSession | taskManager.js:111-113 | after exit in any case the session is closed and the remaining lines produce nothing, change nothing and write nothing |
| CommandLoop.UnknownCommandIgnored | taskManager.js:114-117 | an unrecognised command writes "Invalid command!" and asks again; the rest of the session, its output and its saves, runs as if the line were absent |
| CommandLoop.RunConcat | taskManager.js:86-120 | running two stretches of input one after the other ends in the same state as running them together |
| CommandLoop.TypedIndexIsOneBased | taskManager.js:100-108 | typing the number n selects 0-based position n - 1 |
| CommandLoop.MarkByNumber | taskManager.js:99-103 | typing the number of a listed task after mark completes exactly that task |
| CommandLoop.RemoveByNumber | taskManager.js:105-109 | typing the number of a listed task after remove removes exactly that task |
| CommandLoop.ListingLineSelectsItsTask | taskManager.js:60 | a whole listing line typed back as an index selects the task that line shows |
| CommandLoop.BadIndexKeepsFile | taskManager.js:64-84 | after mark or remove, an index out of range or NaN leaves the file exactly as it was and unwritten, with "Invalid task index!" and the next question |
| CommandLoop.NegativeIsBadIndex | taskManager.js:101 | "-n" denotes position -n - 1, which is never in range |
| CommandLoop.NonNumericIndex | taskManager.js:101 | "abc" is NaN, which is never in range |
| CommandLoop.AddThenText | taskManager.js:89-93 | add followed by a line appends that line as an unchecked task |
| CommandLoop.MarkThenNumber | taskManager.js:99-103 | mark followed by the number of a listed task completes that task |
| CommandLoop.ViewThenExit | taskManager.js:95-113 | view lists the tasks and changes nothing; exit then closes without output |
| CommandLoop.FreshStartViewsHeaderOnly | taskManager.js:8-124 | with no tasks file, the program creates one holding the empty list, greets, and view then exit prints only the header |
| CommandLoop.BuyMilkSession | taskManager.js:86-124 | add "buy milk", mark 1, view, exit (in any case) leaves the file holding "buy milk" completed |
| CommandLoop.Dispatch | taskManager.js:87-118 | handling a command line moves to the state and writes the output that Step gives, through the store |
| CommandLoop.Answer | taskManager.js:90-109 | handling an argument line changes the file and writes the output that Step gives, through the store, saving exactly as often as StepWrites says |
| CommandLoop.AnswerTask | taskManager.js:90-93 | the task text goes to the store's add, saved once, then the command question |
| CommandLoop.AnswerMark | taskManager.js:100-103 | parseInt of the line minus one goes to the store's mark, saved once for a valid index and not at all otherwise, then the command question |
| CommandLoop.AnswerRemove | taskManager.js:106-109 | parseInt of the line minus one goes to the store's remove, saved once for a valid index and not at all otherwise, then the command question |
| CommandLoop.Handle | taskManager.js:86-118 | one re-entry of `prompt` through the store changes the file, writes the output and saves exactly as Step and StepWrites give, whether the line is a command or an argument |
| CommandLoop.Serve | taskManager.js:86-120 | the loop of re-entries over the input lines, stopping at exit or at the end of input, ends in the state and file, writes the output and saves as many times as Run and RunWrites give |
| CommandLoop.RunSession | taskManager.js:8-124 | the whole program on an input sequence ends in the state and file, writes the output, and saves as many times, as Session and SessionWrites give |

## Left out

- Store.TaskStore.Save: a failed write (`Error saving tasks:`, taskManager.js:45) is not modelled; every save succeeds.
- Store.TaskStore.Initialize: a failure to create the file (`Error initializing tasks file:`, taskManager.js:15) is not modelled.
- Store.TaskStore.Load: the error object printed after "Error loading tasks:" is left out. So is the JSON text of the file (`JSON.stringify(tasks, null, 2)` and `JSON.parse`). The file holds the list value directly. A file that does not exist is `Missing` (loaded silently as the empty list), and any other read failure, or a parse failure, is `Unreadable`.
- A file that parses to JSON that is not an array of tasks (where `push` or `forEach` would throw) is not modelled.
- CommandLoop.ArgumentIndex: `parseInt` yields a double. The model uses unbounded integers, so precision loss above 2^53 is not modelled. A numeral so long that `parseInt` gives Infinity is not modelled either. Both can only arise for numbers far beyond any list length, and such indexes are rejected in both cases.
- CommandLoop.ToLower: lower-cases only A-Z and KELVIN SIGN (U+212A), and leaves every other character as it is. JavaScript lower-cases more characters, but none of the others lower-cases to an ASCII letter of a command name without adding a further character. So which command a line selects is exactly as in JavaScript.
- CommandLoop.RunConcat: covers the final state only, not the output of the two stretches.
- The `readline` interface is asynchronous. Each callback that re-enters `prompt` becomes one iteration of the loop in `Serve`. Input is a sequence of lines without their terminators, and the end of input ends the session. The text of each question is recorded as a `Prompt` output item.
- The in-place changes to the loaded array (`push`, the field write, `splice`) are modelled as updates of a local sequence. The array never escapes the function that loaded it, so no aliasing is lost.
