/** The emulator demo's console text: splitting what the emulator printed
    into lines, and the filter that hides the `[DEBUG]` tail of a line when
    debug mode is off. */
module EmulatorConsole {

  import opened Wrappers
  import opened JsString
  import JsNumber

  const DebugMarker := "[DEBUG]"

  /** One line of `filterDebugOutput`'s `map`: a line with the marker is cut
      at its first occurrence and trimmed; any other line is kept as it is. */
  function CutDebug(line: string): (r: string)
    ensures |r| <= |line|
  {
    match IndexOf(line, DebugMarker)
    case Some(k) => Trim(line[..k])
    case None => line
  }

  /** The cut line never shows the marker, and a line without it is kept
      verbatim. */
  lemma CutDebugRemovesMarker(line: string)
    ensures !Contains(CutDebug(line), DebugMarker)
    ensures !Contains(line, DebugMarker) ==> CutDebug(line) == line
  {
    match IndexOf(line, DebugMarker)
    case Some(k) =>
      PrefixBeforeFirstMatch(line, DebugMarker, k);
      var lo, hi :| 0 <= lo <= hi <= k && Trim(line[..k]) == line[..k][lo..hi];
      SliceKeepsAbsence(line[..k], DebugMarker, lo, hi);
    case None =>
  }

  /** The marker's only `[` is its first character, so in a line whose text
      before a marker holds none, that marker is the first one. */
  lemma FirstMarkerAfter(p: string, t: string)
    requires !Contains(p, DebugMarker)
    ensures IndexOf(p + DebugMarker + t, DebugMarker) == Some(|p|)
  {
    var s := p + DebugMarker + t;
    assert s[|p|..|p| + |DebugMarker|] == DebugMarker;
    assert MatchesAt(s, DebugMarker, |p|);
    forall j: nat | j < |p| ensures !MatchesAt(s, DebugMarker, j) {
      if j + |DebugMarker| <= |p| {
        assert s[j..j + |DebugMarker|] == p[j..j + |DebugMarker|];
        assert !MatchesAt(p, DebugMarker, j);
      } else {
        assert s[j..j + |DebugMarker|][|p| - j] == s[|p|] == '[';
      }
    }
  }

  /** A line carrying the marker shows the text before its first marker,
      trimmed; whatever follows the marker is hidden. */
  lemma CutMarkedLine(p: string, t: string)
    requires !Contains(p, DebugMarker)
    ensures CutDebug(p + DebugMarker + t) == Trim(p)
  {
    FirstMarkerAfter(p, t);
    assert (p + DebugMarker + t)[..|p|] == p;
  }

  /** A line shown as it is: non-empty and without the marker. */
  predicate Clean(line: string) {
    line != "" && !Contains(line, DebugMarker)
  }

  /** The `map` step: every line cut. */
  function CutAll(lines: seq<string>): (r: seq<string>)
    ensures |r| == |lines|
    ensures forall k :: 0 <= k < |r| ==> r[k] == CutDebug(lines[k])
  {
    if lines == [] then [] else [CutDebug(lines[0])] + CutAll(lines[1..])
  }

  /** The `filter` step: the empty lines dropped, the others kept in order. */
  function NonEmpty(lines: seq<string>): (r: seq<string>)
    ensures |r| <= |lines|
    ensures forall k :: 0 <= k < |r| ==> r[k] != "" && r[k] in lines
  {
    if lines == [] then []
    else (if lines[0] != "" then [lines[0]] else []) + NonEmpty(lines[1..])
  }

  /** `filterDebugOutput(lines)`: every line cut, then the empty ones dropped. */
  function FilterDebugOutput(lines: seq<string>): (r: seq<string>)
    ensures |r| <= |lines|
  {
    NonEmpty(CutAll(lines))
  }

  /** A marked line among others: in its place the regular console shows
      the trimmed text before the first marker, or nothing when that text
      is blank. */
  lemma MarkedLineShown(before: seq<string>, p: string, t: string, after: seq<string>)
    requires !Contains(p, DebugMarker)
    ensures FilterDebugOutput(before + [p + DebugMarker + t] + after)
            == FilterDebugOutput(before) + (if Trim(p) == "" then [] else [Trim(p)]) + FilterDebugOutput(after)
  {
    var line := p + DebugMarker + t;
    FilterAppend(before + [line], after);
    FilterAppend(before, [line]);
    CutMarkedLine(p, t);
    assert CutAll([line]) == [Trim(p)];
    assert NonEmpty([Trim(p)]) == (if Trim(p) == "" then [] else [Trim(p)]) by {
      assert [Trim(p)][1..] == [];
    }
  }

  /** Every line left after filtering is non-empty and free of the marker. */
  lemma FilterOutputClean(lines: seq<string>)
    ensures forall k :: 0 <= k < |FilterDebugOutput(lines)| ==> Clean(FilterDebugOutput(lines)[k])
  {
    var cut := CutAll(lines);
    forall k | 0 <= k < |FilterDebugOutput(lines)|
      ensures Clean(FilterDebugOutput(lines)[k])
    {
      var line := FilterDebugOutput(lines)[k];
      var j :| 0 <= j < |cut| && cut[j] == line;
      CutDebugRemovesMarker(lines[j]);
    }
  }

  /** The `filter` step keeps every non-empty line. */
  lemma {:induction false} NonEmptyKeepsNonEmpty(lines: seq<string>)
    ensures forall k :: 0 <= k < |lines| && lines[k] != "" ==> lines[k] in NonEmpty(lines)
    decreases |lines|
  {
    if lines != [] {
      NonEmptyKeepsNonEmpty(lines[1..]);
      assert forall k :: 1 <= k < |lines| ==> lines[k] == lines[1..][k - 1];
    }
  }

  /** A line is shown exactly when it is the non-empty cut of an input
      line. */
  lemma FilterShows(lines: seq<string>)
    ensures forall x :: x in FilterDebugOutput(lines) <==>
      x != "" && exists j :: 0 <= j < |lines| && x == CutDebug(lines[j])
  {
    NonEmptyKeepsNonEmpty(CutAll(lines));
  }

  lemma {:induction false} NonEmptyAppend(a: seq<string>, b: seq<string>)
    ensures NonEmpty(a + b) == NonEmpty(a) + NonEmpty(b)
    decreases |a|
  {
    if a == [] {
      assert a + b == b;
    } else {
      assert (a + b)[0] == a[0] && (a + b)[1..] == a[1..] + b;
      NonEmptyAppend(a[1..], b);
    }
  }

  /** The `map` step cuts each line on its own, keeping the order. */
  lemma {:induction false} CutAllAppend(a: seq<string>, b: seq<string>)
    ensures CutAll(a + b) == CutAll(a) + CutAll(b)
    decreases |a|
  {
    if a == [] {
      assert a + b == b;
    } else {
      assert (a + b)[0] == a[0] && (a + b)[1..] == a[1..] + b;
      CutAllAppend(a[1..], b);
    }
  }

  /** Filtering a concatenation filters each part: lines are handled one
      at a time and keep their order. */
  lemma FilterAppend(a: seq<string>, b: seq<string>)
    ensures FilterDebugOutput(a + b) == FilterDebugOutput(a) + FilterDebugOutput(b)
  {
    CutAllAppend(a, b);
    NonEmptyAppend(CutAll(a), CutAll(b));
  }

  lemma {:induction false} NonEmptyKeeps(lines: seq<string>)
    requires forall k :: 0 <= k < |lines| ==> lines[k] != ""
    ensures NonEmpty(lines) == lines
    decreases |lines|
  {
    if lines != [] {
      NonEmptyKeeps(lines[1..]);
      assert lines == [lines[0]] + lines[1..];
    }
  }

  /** Clean lines pass the filter unchanged. */
  lemma FilterKeepsClean(lines: seq<string>)
    requires forall k :: 0 <= k < |lines| ==> Clean(lines[k])
    ensures FilterDebugOutput(lines) == lines
  {
    forall k | 0 <= k < |lines| ensures CutDebug(lines[k]) == lines[k] {
      CutDebugRemovesMarker(lines[k]);
    }
    assert CutAll(lines) == lines;
    NonEmptyKeeps(lines);
  }

  /** Filtering twice is filtering once. */
  lemma FilterIdempotent(lines: seq<string>)
    ensures FilterDebugOutput(FilterDebugOutput(lines)) == FilterDebugOutput(lines)
  {
    FilterOutputClean(lines);
    FilterKeepsClean(FilterDebugOutput(lines));
  }

  /** A line without the marker keeps its place and its text, surrounding
      whitespace included; only marked lines are trimmed. */
  lemma PlainLineKept(before: seq<string>, line: string, after: seq<string>)
    requires Clean(line)
    ensures FilterDebugOutput(before + [line] + after)
            == FilterDebugOutput(before) + [line] + FilterDebugOutput(after)
  {
    FilterAppend(before + [line], after);
    FilterAppend(before, [line]);
    FilterKeepsClean([line]);
  }

  /** The pieces of `split` that are not blank, in order. */
  function DropBlank(pieces: seq<string>): (r: seq<string>)
    ensures |r| <= |pieces|
    ensures forall k :: 0 <= k < |r| ==> Trim(r[k]) != "" && r[k] in pieces
    ensures forall k :: 0 <= k < |pieces| && Trim(pieces[k]) != "" ==> pieces[k] in r
  {
    if pieces == [] then []
    else (if Trim(pieces[0]) != "" then [pieces[0]] else []) + DropBlank(pieces[1..])
  }

  /** `text.split('\n').filter(line => line.trim().length > 0)`. */
  function ConsoleLines(text: string): (r: seq<string>)
    ensures forall k :: 0 <= k < |r| ==> Trim(r[k]) != "" && '\n' !in r[k]
    // no non-blank line of the text is lost
    ensures forall x :: x in Split(text, '\n') && Trim(x) != "" ==> x in r
  {
    DropBlank(Split(text, '\n'))
  }

  /** A blank piece is dropped and any other kept. */
  lemma DropBlankOne(x: string)
    ensures DropBlank([x]) == if Trim(x) == "" then [] else [x]
  {
    assert [x][1..] == [];
  }

  /** Dropping blank pieces works piece by piece, keeping the order. */
  lemma {:induction false} DropBlankAppend(a: seq<string>, b: seq<string>)
    ensures DropBlank(a + b) == DropBlank(a) + DropBlank(b)
    decreases |a|
  {
    if a == [] {
      assert a + b == b;
    } else {
      assert (a + b)[0] == a[0] && (a + b)[1..] == a[1..] + b;
      DropBlankAppend(a[1..], b);
    }
  }

  lemma {:induction false} DropBlankKeepsLines(pieces: seq<string>)
    requires forall k :: 0 <= k < |pieces| ==> Trim(pieces[k]) != ""
    ensures DropBlank(pieces) == pieces
    decreases |pieces|
  {
    if pieces != [] {
      DropBlankKeepsLines(pieces[1..]);
      assert pieces == [pieces[0]] + pieces[1..];
    }
  }

  /** Lines printed one per line come back as the non-blank ones among
      them, in order. */
  lemma ConsoleLinesOfLines(lines: seq<string>)
    requires |lines| >= 1
    requires forall k :: 0 <= k < |lines| ==> '\n' !in lines[k]
    ensures ConsoleLines(Join(lines, '\n')) == DropBlank(lines)
  {
    SplitJoin(lines, '\n');
  }

  /** A trailing newline adds an empty last piece. */
  lemma {:induction false} JoinTrailingNewline(lines: seq<string>)
    requires |lines| >= 1
    ensures Join(lines + [""], '\n') == Join(lines, '\n') + "\n"
    decreases |lines|
  {
    if |lines| == 1 {
      assert (lines + [""])[1..] == [""];
    } else {
      assert (lines + [""])[1..] == lines[1..] + [""];
      JoinTrailingNewline(lines[1..]);
    }
  }

  /** Output that ends each line with a newline, blank lines included,
      comes back as its non-blank lines, in order. */
  lemma ConsoleLinesOfTerminated(lines: seq<string>)
    requires |lines| >= 1
    requires forall k :: 0 <= k < |lines| ==> '\n' !in lines[k]
    ensures ConsoleLines(Join(lines, '\n') + "\n") == DropBlank(lines)
  {
    JoinTrailingNewline(lines);
    ConsoleLinesOfLines(lines + [""]);
    DropBlankAppend(lines, [""]);
    DropBlankOne("");
  }

  /** Non-blank lines printed one per line come back as those lines. */
  lemma ConsoleLinesOfJoin(lines: seq<string>)
    requires |lines| >= 1
    requires forall k :: 0 <= k < |lines| ==> Trim(lines[k]) != "" && '\n' !in lines[k]
    ensures ConsoleLines(Join(lines, '\n')) == lines
  {
    SplitJoin(lines, '\n');
    DropBlankKeepsLines(lines);
  }

  /** The console echo of a submitted number, `> ${n}`. */
  function Echo(n: int): (r: string)
    ensures Clean(r)
  {
    var d := JsNumber.DecimalString(n);
    var r := "> " + d;
    assert forall k :: 0 <= k < |d| ==> d[k] != '[' by {
      if n < 0 {
        assert forall k :: 1 <= k < |d| ==> JsNumber.IsDigit(d[k], 10) by {
          assert d[1..] == JsNumber.Digits(-n, 10);
        }
      } else {
        assert d == JsNumber.Digits(n, 10);
      }
    }
    NoBracketNoMarker(r);
    r
  }

  /** The marker starts with `[`, so a line without `[` cannot hold it. */
  lemma NoBracketNoMarker(s: string)
    requires forall k :: 0 <= k < |s| ==> s[k] != '['
    ensures !Contains(s, DebugMarker)
  {
    forall i: nat | i <= |s| ensures !MatchesAt(s, DebugMarker, i) {
      if i + |DebugMarker| <= |s| {
        assert s[i..i + |DebugMarker|][0] == s[i] != DebugMarker[0];
      }
    }
  }
}


/** The emulator card's run/step controls: loading a program, single steps,
    the animated run and its fast-finish mode, reset, and the integer input
    the emulated program asks for. The compiled emulator is an oracle: every
    handler receives what `step`, `load_program` and the display read-back
    returned. */
module EmulatorControl {

  import opened Wrappers
  import opened JsString
  import JsNumber
  import opened EmulatorConsole

  /** What `updateRegisterDisplay` reads back from the emulator. */
  datatype Snapshot = Snapshot(
    registers: map<string, int>,   // the parsed `get_registers` text
    pc: int,                       // `get_pc`
    instruction: Option<string>,   // `get_current_instruction`; None for a null pointer
    cycles: int,                   // `get_total_cycles`
    console: string)               // `get_console_output`

  /** What one call of the emulator's `step` did. */
  datatype StepOutcome = Code(code: int) | StepThrew(message: string)

  /** How `loadExampleProgram` got on: the binary could not be fetched, the
      heap was missing, `load_program` returned `code` and nothing threw
      afterwards, something threw before `load_program` returned 1, or
      `clear_console_output` threw after it returned 1. */
  datatype LoadOutcome =
    | FetchFailed
    | NoHeap
    | Loaded(code: int)
    | LoadThrew(message: string)
    | ClearThrew(message: string)

  /** The program choice and the flags the buttons depend on. */
  datatype Control = Control(
    selectedProgram: string,
    programLoaded: bool,
    isRunning: bool,
    programHalted: bool,
    debugMode: bool)

  /** What the register panel shows. */
  datatype Display = Display(
    registers: map<string, int>,
    currentPC: int,
    currentInstruction: string,
    totalCycles: int)

  /** The execution log, the two console logs and the error line. */
  datatype Logs = Logs(
    executionOutput: seq<string>,
    consoleDebug: seq<string>,
    consoleRegular: seq<string>,
    error: string)

  /** The input prompt. `resume` is the pending resume timer, holding the
      `pausedForInput` value seen when the input was submitted. */
  datatype Prompt = Prompt(
    pausedForInput: bool,
    showInputDialog: bool,
    inputValue: string,
    resume: Option<bool>)

  /** The current run: the fast-finish request, the run's step counter, and
      whether a next animation frame is scheduled. */
  datatype RunLoop = RunLoop(fastFinish: bool, stepCount: nat, frameScheduled: bool)

  /** The whole card. */
  datatype Emu = Emu(control: Control, display: Display, logs: Logs, prompt: Prompt, loop: RunLoop)

  const Initial := Emu(Control("", false, false, false, false), Display(map[], 0, "", 0),
                       Logs([], [], [], ""), Prompt(false, false, "", None), RunLoop(false, 0, false))

  const WaitingForInput := "Program waiting for input..."
  const ExecutionFailed := "ERROR: Execution failed"
  const InvalidInteger := "Please enter a valid integer"
  const FetchFailedPrefix := "Failed to load binary for "
  const NoHeapMessage := "Memory heap not available"
  const LoadErrorPrefix := "Error loading program: "
  const LoadFailedMessage := "Failed to load program"
  const StepHaltedLine := "Program halted (TRP 0)"
  const StepErrorMessage := "Execution error encountered"
  const StepThrewPrefix := "Step error: "
  const RunThrewPrefix := "Run error: "
  const ErrorLinePrefix := "ERROR: "
  const RunErrorMessage := "Execution error"
  const MaxCyclesMessage := "Max cycles exceeded (possible infinite loop)"
  const MaxCyclesLine := "ERROR: Max cycles exceeded"
  const ResetThrewPrefix := "Reset error: "
  const ResetLine := "Emulator reset"

  /** The program list's descriptions; an unlisted name reads as `undefined`. */
  function Description(program: string): string {
    if program == "Program_A" then "Fibonacci Calculator"
    else if program == "Program_B" then "Program B"
    else if program == "Program_C" then "Program C"
    else if program == "Program_D" then "Program D"
    else if program == "testall" then "All Tests"
    else if program == "testall_v2" then "All Tests V2"
    else "undefined"
  }

  /** The execution log after a successful load. */
  function LoadedLog(program: string): seq<string> {
    ["Program loaded: " + Description(program) + " (Project 4 - " + program + ")", "Ready to execute"]
  }

  /** The single-step log line, with the PC in upper-case hexadecimal as
      `toString(16).toUpperCase()` prints it. */
  function StepLine(pc: int): string {
    "Step: PC=0x" + ToUpper(JsNumber.ToRadixString(pc, 16))
  }

  /** The run's closing line after a halt. */
  function HaltedAfter(steps: nat): string {
    "Program halted after " + JsNumber.DecimalString(steps) + " steps"
  }

  /** The log shown in the console panel. */
  function ShownConsole(e: Emu): (r: seq<string>)
    ensures e.control.debugMode ==> r == e.logs.consoleDebug
    ensures !e.control.debugMode ==> r == e.logs.consoleRegular
    // with the logs in agreement, debug mode off shows the filtered debug log
    ensures ConsoleAgrees(e.logs) && !e.control.debugMode ==> r == FilterDebugOutput(e.logs.consoleDebug)
  {
    if e.control.debugMode then e.logs.consoleDebug else e.logs.consoleRegular
  }

  /** The lines one console read-back adds to the debug log. */
  function NewLines(console: string): seq<string> {
    if console != "" then ConsoleLines(console) else []
  }

  /** The instruction text shown: `N/A` for a null pointer or an empty text. */
  function InstructionText(instruction: Option<string>): (r: string)
    ensures r != ""
    ensures instruction.Some? && instruction.value != "" ==> r == instruction.value
  {
    if instruction.Some? && instruction.value != "" then instruction.value else "N/A"
  }

  /** A log with `lines` appended when there are any. */
  function AppendAny(log: seq<string>, lines: seq<string>): (r: seq<string>)
    ensures r == log + lines
  {
    if lines != [] then log + lines else log
  }

  /** The console part of `updateRegisterDisplay`: all new lines go to the
      debug log, their filtered form to the regular log. */
  function AddConsole(l: Logs, console: string): (r: Logs)
    ensures r.consoleDebug == l.consoleDebug + NewLines(console)
    ensures r.consoleRegular == l.consoleRegular + FilterDebugOutput(NewLines(console))
    ensures r.executionOutput == l.executionOutput && r.error == l.error
  {
    l.(consoleDebug := l.consoleDebug + NewLines(console),
       consoleRegular := AppendAny(l.consoleRegular, FilterDebugOutput(NewLines(console))))
  }

  /** `updateRegisterDisplay`: the register panel is replaced by what the
      emulator reports and its console output is added to the logs. */
  function ApplySnapshot(e: Emu, s: Snapshot): (r: Emu)
    ensures r.control == e.control && r.prompt == e.prompt && r.loop == e.loop
    ensures r.display.registers == s.registers && r.display.currentPC == s.pc
    ensures r.display.totalCycles == s.cycles && r.display.currentInstruction != ""
    ensures r.logs == AddConsole(e.logs, s.console)
  {
    e.(display := Display(s.registers, s.pc, InstructionText(s.instruction), s.cycles),
       logs := AddConsole(e.logs, s.console))
  }

  /** The regular log is the debug log with the debug output filtered away. */
  predicate ConsoleAgrees(l: Logs) {
    l.consoleRegular == FilterDebugOutput(l.consoleDebug)
  }

  /** Adding a console read-back keeps the two logs in agreement. */
  lemma AddConsoleAgrees(l: Logs, console: string)
    requires ConsoleAgrees(l)
    ensures ConsoleAgrees(AddConsole(l, console))
  {
    FilterAppend(l.consoleDebug, NewLines(console));
  }

  /** The console read-back after `clear_console_output` is empty, and then
      the display update adds no line to either log. */
  lemma EmptyConsoleAddsNothing(l: Logs)
    ensures AddConsole(l, "") == l
  {
    assert FilterDebugOutput([]) == [];
  }

  function WithLine(e: Emu, line: string): Emu {
    e.(logs := e.logs.(executionOutput := e.logs.executionOutput + [line]))
  }

  function Report(e: Emu, error: string, line: string): Emu {
    e.(logs := e.logs.(error := error, executionOutput := e.logs.executionOutput + [line]))
  }

  function WithError(e: Emu, error: string): Emu {
    e.(logs := e.logs.(error := error))
  }

  function AskInput(e: Emu): Emu {
    e.(prompt := e.prompt.(showInputDialog := true, inputValue := ""))
  }

  /** Choosing a program in the list. */
  function SelectProgram(e: Emu, name: string): (r: Emu)
    ensures r.control == e.control.(selectedProgram := name, programLoaded := false, programHalted := false)
    ensures r == e.(control := r.control, logs := e.logs.(error := ""))
  {
    e.(control := e.control.(selectedProgram := name, programLoaded := false, programHalted := false),
       logs := e.logs.(error := ""))
  }

  /** The state updates `loadExampleProgram` makes once `load_program`
      returned 1, before it clears the emulator's console. */
  function LoadStarted(e: Emu): Emu {
    e.(control := e.control.(programLoaded := true, programHalted := false),
       display := e.display.(totalCycles := 0),
       logs := Logs(LoadedLog(e.control.selectedProgram), [], [], e.logs.error))
  }

  /** The success path of `loadExampleProgram`. */
  function LoadSucceeded(e: Emu, s: Snapshot): Emu {
    WithError(ApplySnapshot(LoadStarted(e), s), "")
  }

  /** `loadExampleProgram()` for the selected program; `present` says whether
      the emulator module is available. */
  function LoadProgram(e: Emu, present: bool, outcome: LoadOutcome, s: Snapshot): (r: Emu)
    ensures !present ==> r == e
  {
    if !present then e
    else
      match outcome
      case FetchFailed => WithError(e, FetchFailedPrefix + e.control.selectedProgram)
      case NoHeap => WithError(e, NoHeapMessage)
      case LoadThrew(m) => WithError(e, LoadErrorPrefix + m)
      case ClearThrew(m) => WithError(LoadStarted(e), LoadErrorPrefix + m)
      case Loaded(code) => if code == 1 then LoadSucceeded(e, s) else WithError(e, LoadFailedMessage)
  }

  /** A successful load marks the program loaded and not halted, starts a new
      execution log, clears the error and restarts both console logs with
      what the emulator's console holds (nothing, right after
      `clear_console_output`). The cycle count shown is the emulator's. */
  lemma LoadSucceeds(e: Emu, s: Snapshot)
    ensures var r := LoadProgram(e, true, Loaded(1), s);
            r.control == e.control.(programLoaded := true, programHalted := false)
            && r.logs.error == ""
            && r.logs.executionOutput == LoadedLog(e.control.selectedProgram)
            && r.logs.consoleDebug == NewLines(s.console)
            && r.logs.consoleRegular == FilterDebugOutput(NewLines(s.console))
            && r.display.totalCycles == s.cycles
            && r.prompt == e.prompt && r.loop == e.loop
    ensures s.console == "" ==>
              (LoadProgram(e, true, Loaded(1), s).logs.consoleDebug == []
               && LoadProgram(e, true, Loaded(1), s).logs.consoleRegular == [])
  {
    assert FilterDebugOutput([]) == [];
  }

  /** Every other load outcome sets an error, which is never empty; all but a
      throw after `load_program` succeeded change nothing else. */
  lemma LoadFailureOnlyReports(e: Emu, outcome: LoadOutcome, s: Snapshot)
    requires outcome != Loaded(1)
    ensures LoadProgram(e, true, outcome, s).logs.error != ""
    ensures !outcome.ClearThrew? ==>
              LoadProgram(e, true, outcome, s) == WithError(e, LoadProgram(e, true, outcome, s).logs.error)
  {
  }

  /** When `clear_console_output` throws after a successful `load_program`,
      the updates made before it stand: the program is loaded and not
      halted, the log starts anew, both consoles are empty and the cycle
      count shows 0, with the register display not read back. The error is
      the thrown message. */
  lemma LoadThrewAfterSuccess(e: Emu, m: string, s: Snapshot)
    ensures var r := LoadProgram(e, true, ClearThrew(m), s);
            r.control == e.control.(programLoaded := true, programHalted := false)
            && r.logs == Logs(LoadedLog(e.control.selectedProgram), [], [], LoadErrorPrefix + m)
            && r.display == e.display.(totalCycles := 0)
            && r.prompt == e.prompt && r.loop == e.loop
  {
  }

  /** `stepInstruction`: one step of the emulator, dispatched on its result.
      The logged PC is the one displayed before the step. */
  function Step(e: Emu, present: bool, outcome: StepOutcome, s: Snapshot): (r: Emu)
    ensures !present || !e.control.programLoaded || e.control.programHalted ==> r == e
    ensures outcome.Code? && outcome.code !in {1, 2, 0, -1} ==> r == e
    ensures r.control.isRunning == e.control.isRunning && r.loop == e.loop
  {
    if !present || !e.control.programLoaded || e.control.programHalted then e
    else
      match outcome
      case StepThrew(m) => WithError(e, StepThrewPrefix + m)
      case Code(c) =>
        if c == 1 then WithLine(ApplySnapshot(e, s), StepLine(e.display.currentPC))
        else if c == 2 then
          WithLine(AskInput(ApplySnapshot(e.(prompt := e.prompt.(pausedForInput := false)), s)), WaitingForInput)
        else if c == 0 then
          WithLine(ApplySnapshot(e.(control := e.control.(programHalted := true)), s), StepHaltedLine)
        else if c == -1 then
          Report(e.(control := e.control.(programHalted := true)), StepErrorMessage, ExecutionFailed)
        else e
  }

  predicate CanStep(e: Emu, present: bool) {
    present && e.control.programLoaded && !e.control.programHalted
  }

  /** A 1 result refreshes the display and logs the PC shown before the step. */
  lemma StepAdvances(e: Emu, s: Snapshot)
    requires CanStep(e, true)
    ensures var r := Step(e, true, Code(1), s);
            r.logs.executionOutput == e.logs.executionOutput + [StepLine(e.display.currentPC)]
            && r.display.currentPC == s.pc && r.control == e.control
  {
  }

  /** A 2 result opens the input prompt, empty, and marks it as a single step. */
  lemma StepAsksForInput(e: Emu, s: Snapshot)
    requires CanStep(e, true)
    ensures var r := Step(e, true, Code(2), s);
            r.prompt == e.prompt.(pausedForInput := false, showInputDialog := true, inputValue := "")
            && r.logs.executionOutput == e.logs.executionOutput + [WaitingForInput]
            && r.control == e.control
  {
  }

  /** A 0 result halts the program; a -1 result halts it with an error. */
  lemma StepHaltsOrFails(e: Emu, s: Snapshot)
    requires CanStep(e, true)
    ensures var r := Step(e, true, Code(0), s);
            r.control == e.control.(programHalted := true)
            && r.logs.executionOutput == e.logs.executionOutput + [StepHaltedLine]
            && r.logs.error == e.logs.error
    ensures var r := Step(e, true, Code(-1), s);
            r.control == e.control.(programHalted := true)
            && r.logs.error == StepErrorMessage
            && r.logs.executionOutput == e.logs.executionOutput + [ExecutionFailed]
            && r.display == e.display
  {
  }

  /** The results that end a run: input requested, halt, error, cycle limit
      or an exception. */
  predicate Stops(o: StepOutcome) {
    o.StepThrew? || o.code == 2 || o.code == 0 || o.code == -1 || o.code == -2
  }

  /** The run flag and the frame chain dropped. */
  function Stopped(e: Emu): Emu {
    e.(control := e.control.(isRunning := false), loop := e.loop.(frameScheduled := false))
  }

  /** Stopped and halted; the fast-finish request is dropped too. */
  function Halted(e: Emu): Emu {
    e.(control := e.control.(isRunning := false, programHalted := true),
       loop := e.loop.(fastFinish := false, frameScheduled := false))
  }

  /** A run's end once the emulator reported a stopping result. */
  function Settle(e: Emu, o: StepOutcome, s: Snapshot): (r: Emu)
    requires Stops(o)
    ensures !r.control.isRunning && !r.loop.frameScheduled
    ensures r.loop.stepCount == e.loop.stepCount
  {
    match o
    case StepThrew(m) => Report(Stopped(e), RunThrewPrefix + m, ErrorLinePrefix + m)
    case Code(c) =>
      if c == 2 then
        WithLine(AskInput(ApplySnapshot(Stopped(e).(prompt := e.prompt.(pausedForInput := true)), s)), WaitingForInput)
      else if c == 0 then WithLine(ApplySnapshot(Halted(e), s), HaltedAfter(e.loop.stepCount))
      else if c == -1 then Report(Halted(e), RunErrorMessage, ExecutionFailed)
      else Report(Halted(e), MaxCyclesMessage, MaxCyclesLine)
  }

  /** During a run, a 2 result pauses for input: the prompt opens and the
      resume will continue the run. */
  lemma RunPausesForInput(e: Emu, s: Snapshot)
    ensures var r := Settle(e, Code(2), s);
            r.prompt == e.prompt.(pausedForInput := true, showInputDialog := true, inputValue := "")
            && r.control == e.control.(isRunning := false)
            && r.logs.executionOutput == e.logs.executionOutput + [WaitingForInput]
  {
  }

  /** A 0 result halts the program and reports the run's step count. */
  lemma RunHalts(e: Emu, s: Snapshot)
    ensures var r := Settle(e, Code(0), s);
            r.control == e.control.(isRunning := false, programHalted := true)
            && !r.loop.fastFinish
            && r.logs.executionOutput == e.logs.executionOutput + [HaltedAfter(e.loop.stepCount)]
  {
  }

  /** -1 and -2 both halt the program and end the run, each with its own
      error; an exception ends the run without halting the program. */
  lemma RunFails(e: Emu, s: Snapshot, m: string)
    ensures var r := Settle(e, Code(-1), s);
            r.control == e.control.(isRunning := false, programHalted := true) && !r.loop.fastFinish
            && r.logs.error == RunErrorMessage
            && r.logs.executionOutput == e.logs.executionOutput + [ExecutionFailed]
    ensures var r := Settle(e, Code(-2), s);
            r.control == e.control.(isRunning := false, programHalted := true) && !r.loop.fastFinish
            && r.logs.error == MaxCyclesMessage
            && r.logs.executionOutput == e.logs.executionOutput + [MaxCyclesLine]
    ensures var r := Settle(e, StepThrew(m), s);
            r.control == e.control.(isRunning := false)
            && r.logs.error == RunThrewPrefix + m
            && r.logs.executionOutput == e.logs.executionOutput + [ErrorLinePrefix + m]
  {
  }

  /** The run's step counter advanced by `n`. */
  function Counted(e: Emu, n: nat): Emu {
    e.(loop := e.loop.(stepCount := e.loop.stepCount + n))
  }

  /** One animation frame's step: a 1 result counts the step, refreshes the
      display when the 100 ms throttle lets it (`refresh`) and schedules the
      next frame; a stopping result ends the run; any other result ends the
      frame chain without a word, the run flag still set. */
  function Animate(e: Emu, o: StepOutcome, refresh: bool, s: Snapshot): (r: Emu)
    ensures r.control.programLoaded == e.control.programLoaded
    ensures o == Code(1) ==> r.loop == e.loop.(stepCount := e.loop.stepCount + 1)
                             && r.control == e.control && r.logs.executionOutput == e.logs.executionOutput
    ensures !Stops(o) && o != Code(1) ==> r == e.(loop := e.loop.(frameScheduled := false))
  {
    if Stops(o) then Settle(e, o, s)
    else if o == Code(1) then (if refresh then ApplySnapshot(Counted(e, 1), s) else Counted(e, 1))
    else e.(loop := e.loop.(frameScheduled := false))
  }

  /** The start of `runProgram`: running, fast finish off, no steps yet. */
  function StartRun(e: Emu): Emu {
    e.(control := e.control.(isRunning := true), loop := RunLoop(false, 0, true))
  }

  /** `runProgram()`: unless the guard refuses, the run starts and its first
      step is taken at once. */
  function BeginRun(e: Emu, present: bool, o: StepOutcome, refresh: bool, s: Snapshot): (r: Emu)
    ensures !CanStep(e, present) ==> r == e
    ensures CanStep(e, present) ==> r == Animate(StartRun(e), o, refresh, s)
  {
    if !CanStep(e, present) then e else Animate(StartRun(e), o, refresh, s)
  }

  /** A run that is not stopped by its first result is still running with
      its next frame scheduled. */
  lemma RunKeepsGoing(e: Emu, s: Snapshot, refresh: bool)
    requires CanStep(e, true)
    ensures var r := BeginRun(e, true, Code(1), refresh, s);
            r.control.isRunning && r.loop.frameScheduled && r.loop.stepCount == 1 && !r.loop.fastFinish
  {
  }

  /** How many 1 results a sequence of step results holds. */
  function Ones(outs: seq<StepOutcome>): (n: nat)
    ensures n <= |outs|
  {
    if outs == [] then 0
    else Ones(outs[..|outs| - 1]) + (if outs[|outs| - 1] == Code(1) then 1 else 0)
  }

  /** Some result in `outs` stops a run. */
  predicate HasStop(outs: seq<StepOutcome>) {
    exists k :: 0 <= k < |outs| && Stops(outs[k])
  }

  /** The position of the first stopping result. */
  function FirstStop(outs: seq<StepOutcome>): (k: nat)
    requires HasStop(outs)
    ensures k < |outs| && Stops(outs[k])
    ensures forall j :: 0 <= j < k ==> !Stops(outs[j])
  {
    if Stops(outs[0]) then 0
    else
      assert HasStop(outs[1..]) by {
        var k :| 0 <= k < |outs| && Stops(outs[k]);
        assert outs[1..][k - 1] == outs[k];
      }
      1 + FirstStop(outs[1..])
  }

  /** The `while (true)` loop of `runFastFinish`: steps until a stopping
      result, counting the 1 results and passing over any other code. */
  method RunFastFinish(outs: seq<StepOutcome>) returns (steps: nat, stop: nat)
    requires HasStop(outs)
    ensures stop == FirstStop(outs) && Stops(outs[stop])
    ensures steps == Ones(outs[..stop])
  {
    steps, stop := 0, 0;
    while !Stops(outs[stop])
      invariant stop <= FirstStop(outs)
      invariant steps == Ones(outs[..stop])
      decreases FirstStop(outs) - stop
    {
      assert outs[..stop + 1][..stop] == outs[..stop];
      if outs[stop] == Code(1) {
        steps := steps + 1;
      }
      stop := stop + 1;
    }
  }

  /** A fast-finish frame: the emulator's results `outs` up to the first
      stopping one are consumed, then the run settles on that one. */
  function FastFinish(e: Emu, outs: seq<StepOutcome>, s: Snapshot): (r: Emu)
    requires HasStop(outs)
    ensures !r.control.isRunning && !r.loop.frameScheduled
    ensures r.loop.stepCount == e.loop.stepCount + Ones(outs[..FirstStop(outs)])
  {
    Settle(Counted(e, Ones(outs[..FirstStop(outs)])), outs[FirstStop(outs)], s)
  }

  /** Results after the stopping one are never asked for. */
  lemma {:induction false} FirstStopOfLonger(outs: seq<StepOutcome>, more: seq<StepOutcome>)
    requires HasStop(outs)
    ensures HasStop(outs + more) && FirstStop(outs + more) == FirstStop(outs)
  {
    var k := FirstStop(outs);
    assert (outs + more)[k] == outs[k];
    if k > 0 {
      assert (outs + more)[1..] == outs[1..] + more;
      assert HasStop(outs[1..]) by { assert outs[1..][k - 1] == outs[k]; }
      FirstStopOfLonger(outs[1..], more);
    }
  }

  /** A fast finish depends only on the results up to the stopping one. */
  lemma FastFinishIgnoresLaterResults(e: Emu, outs: seq<StepOutcome>, more: seq<StepOutcome>, s: Snapshot)
    requires HasStop(outs)
    ensures HasStop(outs + more) && FastFinish(e, outs + more, s) == FastFinish(e, outs, s)
  {
    FirstStopOfLonger(outs, more);
    var k := FirstStop(outs);
    assert (outs + more)[..k] == outs[..k];
    assert (outs + more)[k] == outs[k];
  }

  /** A fast finish ending in a halt reports every step the run took: the
      animated ones before the request and the 1 results of the fast loop. */
  lemma FastFinishHaltCounts(e: Emu, outs: seq<StepOutcome>, s: Snapshot)
    requires HasStop(outs) && outs[FirstStop(outs)] == Code(0)
    ensures var r := FastFinish(e, outs, s);
            r.control == e.control.(isRunning := false, programHalted := true) && !r.loop.fastFinish
            && r.logs.executionOutput
               == e.logs.executionOutput + [HaltedAfter(e.loop.stepCount + Ones(outs[..FirstStop(outs)]))]
  {
    HaltCounted(e, Ones(outs[..FirstStop(outs)]), s);
  }

  lemma HaltCounted(e: Emu, n: nat, s: Snapshot)
    ensures var r := Settle(Counted(e, n), Code(0), s);
            r.control == e.control.(isRunning := false, programHalted := true) && !r.loop.fastFinish
            && r.logs.executionOutput == e.logs.executionOutput + [HaltedAfter(e.loop.stepCount + n)]
  {
    RunHalts(Counted(e, n), s);
  }

  /** The Finish button: the next frame runs to completion. */
  function RequestFastFinish(e: Emu): (r: Emu)
    ensures r.loop.fastFinish && r == e.(loop := r.loop)
    ensures r.loop.stepCount == e.loop.stepCount && r.loop.frameScheduled == e.loop.frameScheduled
  {
    e.(loop := e.loop.(fastFinish := true))
  }

  /** `resetEmulator()`; `threw` is the exception raised by the emulator's
      `reset` or `clear_console_output`, if any. */
  function Reset(e: Emu, present: bool, threw: Option<string>, s: Snapshot): (r: Emu)
    ensures !present ==> r == e
  {
    if !present then e
    else if threw.Some? then WithError(e, ResetThrewPrefix + threw.value)
    else ResetLogs(ApplySnapshot(e.(control := e.control.(programHalted := false)), s))
  }

  function ResetLogs(e: Emu): Emu {
    e.(logs := Logs([ResetLine], [], [], ""))
  }

  /** A reset leaves the program loaded and not halted, the logs holding only
      the reset line, both consoles empty and no error. */
  lemma ResetClears(e: Emu, s: Snapshot)
    ensures var r := Reset(e, true, None, s);
            r.control == e.control.(programHalted := false)
            && r.logs == Logs([ResetLine], [], [], "")
            && r.display.totalCycles == s.cycles && r.display.currentPC == s.pc
            && r.prompt == e.prompt && r.loop == e.loop
    ensures forall m :: Reset(e, true, Some(m), s) == WithError(e, ResetThrewPrefix + m)
  {
  }

  /** The input echoed to both console logs. */
  function Echoed(l: Logs, n: int): Logs {
    l.(consoleDebug := l.consoleDebug + [Echo(n)], consoleRegular := l.consoleRegular + [Echo(n)])
  }

  /** `handleInputSubmit()`: the typed text is read as a base-10 integer; a
      number closes the prompt, is echoed to both consoles and arms the resume
      timer with the current `pausedForInput`. `threw` says that
      `provide_input` or `clear_input_request` threw: the handler has no
      `try`, so the prompt and echo updates stand and no timer is armed. */
  function SubmitInput(e: Emu, present: bool, threw: bool): (r: Emu)
    ensures !present ==> r == e
  {
    if !present then e
    else
      match JsNumber.ParseInt(e.prompt.inputValue, 10)
      case None => WithError(e, InvalidInteger)
      case Some(n) =>
        var resume := if threw then e.prompt.resume else Some(e.prompt.pausedForInput);
        e.(prompt := Prompt(e.prompt.pausedForInput, false, "", resume),
           logs := Echoed(e.logs, n))
  }

  /** Text that does not read as an integer only sets the error. */
  lemma SubmitRejectsNonNumber(e: Emu, threw: bool)
    requires JsNumber.ParseInt(e.prompt.inputValue, 10).None?
    ensures SubmitInput(e, true, threw) == WithError(e, InvalidInteger)
  {
  }

  /** An accepted number appears as the same clean line at the end of both
      console logs, whichever log is shown, and the prompt closes, even when
      the emulator then throws. The resume timer is armed with the current
      `pausedForInput` only when it does not throw. */
  lemma SubmitEchoes(e: Emu, n: int, threw: bool)
    requires JsNumber.ParseInt(e.prompt.inputValue, 10) == Some(n)
    ensures var r := SubmitInput(e, true, threw);
            r.logs.consoleDebug == e.logs.consoleDebug + [Echo(n)]
            && r.logs.consoleRegular == e.logs.consoleRegular + [Echo(n)]
            && ShownConsole(r) == ShownConsole(e) + [Echo(n)]
            && !r.prompt.showInputDialog && r.prompt.inputValue == ""
            && r.prompt.pausedForInput == e.prompt.pausedForInput
            && r.control == e.control && r.logs.error == e.logs.error
    ensures !threw ==> SubmitInput(e, true, threw).prompt.resume == Some(e.prompt.pausedForInput)
    ensures threw ==> SubmitInput(e, true, threw).prompt.resume == e.prompt.resume
  {
  }

  /** An echo keeps the regular log equal to the filtered debug log. */
  lemma EchoAgrees(l: Logs, n: int)
    requires ConsoleAgrees(l)
    ensures ConsoleAgrees(Echoed(l, n))
  {
    FilterAppend(l.consoleDebug, [Echo(n)]);
    FilterKeepsClean([Echo(n)]);
  }

  /** The resume timer fires: a run paused for input runs on, a step paused
      for input steps once more. */
  function Resume(e: Emu, present: bool, o: StepOutcome, refresh: bool, s: Snapshot): (r: Emu)
    requires e.prompt.resume.Some?
    ensures r.prompt.resume.None?
    // a timer armed during a run starts the run again
    ensures e.prompt.resume.value ==>
      r == BeginRun(e.(prompt := e.prompt.(resume := None)), present, o, refresh, s)
    // one armed during a single step takes one more step
    ensures !e.prompt.resume.value ==> r == Step(e.(prompt := e.prompt.(resume := None)), present, o, s)
  {
    if e.prompt.resume.value then BeginRun(e.(prompt := e.prompt.(resume := None)), present, o, refresh, s)
    else Step(e.(prompt := e.prompt.(resume := None)), present, o, s)
  }

  /** The program names the list offers. */
  const Programs := {"Program_A", "Program_B", "Program_C", "Program_D", "testall", "testall_v2"}

  /** What the user and the browser can do to the card. */
  datatype Event =
    | Select(name: string)
    | Load(present: bool, result: LoadOutcome, snap: Snapshot)
    | StepOnce(present: bool, outcome: StepOutcome, snap: Snapshot)
    | Run(present: bool, outcome: StepOutcome, refresh: bool, snap: Snapshot)
    | Frame(outcome: StepOutcome, refresh: bool, snap: Snapshot)
    | FastFrame(outs: seq<StepOutcome>, snap: Snapshot)
    | Finish
    | ResetCard(present: bool, threw: Option<string>, snap: Snapshot)
    | ToggleDebug(on: bool)
    | Type(text: string)
    | Submit(present: bool, failed: bool)
    | ResumeFired(present: bool, outcome: StepOutcome, refresh: bool, snap: Snapshot)

  /** When each event can happen: the buttons' enabled conditions, a frame
      only while one is scheduled, the input only while it is shown. */
  predicate Enabled(e: Emu, ev: Event) {
    match ev
    case Select(name) => name in Programs
    case Load(_, _, _) => !e.control.programLoaded && e.control.selectedProgram != ""
    case StepOnce(_, _, _) => e.control.programLoaded && !e.control.isRunning && !e.control.programHalted
    case Run(_, _, _, _) => e.control.programLoaded && !e.control.isRunning && !e.control.programHalted
    case Frame(_, _, _) => e.loop.frameScheduled && !e.loop.fastFinish
    case FastFrame(outs, _) => e.loop.frameScheduled && e.loop.fastFinish && HasStop(outs)
    case Finish => e.control.programLoaded && e.control.isRunning && !e.control.programHalted
    case ResetCard(_, _, _) => e.control.programLoaded && !e.control.isRunning
    case ToggleDebug(_) => true
    case Type(_) => e.prompt.showInputDialog && ShownConsole(e) != []
    case Submit(_, _) => e.prompt.showInputDialog && ShownConsole(e) != []
    case ResumeFired(_, _, _, _) =>
      e.prompt.resume.Some? && (e.prompt.resume.value ==> !e.loop.frameScheduled)
  }

  /** The card after one event. */
  function Apply(e: Emu, ev: Event): Emu
    requires Enabled(e, ev)
  {
    match ev
    case Select(name) => SelectProgram(e, name)
    case Load(p, o, s) => LoadProgram(e, p, o, s)
    case StepOnce(p, o, s) => Step(e, p, o, s)
    case Run(p, o, refresh, s) => BeginRun(e, p, o, refresh, s)
    case Frame(o, refresh, s) => Animate(e, o, refresh, s)
    case FastFrame(outs, s) => FastFinish(e, outs, s)
    case Finish => RequestFastFinish(e)
    case ResetCard(p, threw, s) => Reset(e, p, threw, s)
    case ToggleDebug(on) => e.(control := e.control.(debugMode := on))
    case Type(text) => e.(prompt := e.prompt.(inputValue := text))
    case Submit(p, threw) => SubmitInput(e, p, threw)
    case ResumeFired(p, o, refresh, s) => Resume(e, p, o, refresh, s)
  }

  /** Each event of `evs` is enabled when it comes. */
  predicate Runs(e: Emu, evs: seq<Event>)
    decreases |evs|
  {
    evs == [] || (Enabled(e, evs[0]) && Runs(Apply(e, evs[0]), evs[1..]))
  }

  function RunAll(e: Emu, evs: seq<Event>): Emu
    requires Runs(e, evs)
    decreases |evs|
  {
    if evs == [] then e else RunAll(Apply(e, evs[0]), evs[1..])
  }

  /** The card's invariant: the regular console log is the debug log with
      the debug output filtered away, and frames are scheduled only while
      the card is running. */
  predicate Inv(e: Emu) {
    ConsoleAgrees(e.logs) && (e.loop.frameScheduled ==> e.control.isRunning)
  }

  lemma InitialInv()
    ensures Inv(Initial)
  {
    assert FilterDebugOutput([]) == [];
  }

  lemma SnapshotInv(e: Emu, s: Snapshot)
    requires Inv(e)
    ensures Inv(ApplySnapshot(e, s))
  {
    AddConsoleAgrees(e.logs, s.console);
  }

  lemma LoadInv(e: Emu, p: bool, o: LoadOutcome, s: Snapshot)
    requires Inv(e)
    ensures Inv(LoadProgram(e, p, o, s))
  {
    if p && o == Loaded(1) {
      assert FilterDebugOutput([]) == [];
      SnapshotInv(LoadStarted(e), s);
    } else if p && o.ClearThrew? {
      assert FilterDebugOutput([]) == [];
    }
  }

  lemma StepInv(e: Emu, p: bool, o: StepOutcome, s: Snapshot)
    requires Inv(e)
    ensures Inv(Step(e, p, o, s))
  {
    if CanStep(e, p) && o.Code? {
      if o.code == 2 {
        SnapshotInv(e.(prompt := e.prompt.(pausedForInput := false)), s);
      } else if o.code == 0 {
        SnapshotInv(e.(control := e.control.(programHalted := true)), s);
      } else {
        SnapshotInv(e, s);
      }
    }
  }

  lemma SettleInv(e: Emu, o: StepOutcome, s: Snapshot)
    requires Inv(e) && Stops(o)
    ensures Inv(Settle(e, o, s))
  {
    if o == Code(2) {
      SnapshotInv(Stopped(e).(prompt := e.prompt.(pausedForInput := true)), s);
    } else if o == Code(0) {
      SnapshotInv(Halted(e), s);
    }
  }

  lemma AnimateInv(e: Emu, o: StepOutcome, refresh: bool, s: Snapshot)
    requires Inv(e) && e.control.isRunning
    ensures Inv(Animate(e, o, refresh, s))
  {
    if Stops(o) {
      SettleInv(e, o, s);
    } else if o == Code(1) && refresh {
      SnapshotInv(Counted(e, 1), s);
    }
  }

  lemma BeginRunInv(e: Emu, p: bool, o: StepOutcome, refresh: bool, s: Snapshot)
    requires Inv(e)
    ensures Inv(BeginRun(e, p, o, refresh, s))
  {
    if CanStep(e, p) {
      AnimateInv(StartRun(e), o, refresh, s);
    }
  }

  lemma ApplyInv(e: Emu, ev: Event)
    requires Inv(e) && Enabled(e, ev)
    ensures Inv(Apply(e, ev))
  {
    match ev
    case Load(p, o, s) => LoadInv(e, p, o, s);
    case StepOnce(p, o, s) => StepInv(e, p, o, s);
    case Run(p, o, refresh, s) => BeginRunInv(e, p, o, refresh, s);
    case Frame(o, refresh, s) => AnimateInv(e, o, refresh, s);
    case FastFrame(outs, s) =>
      SettleInv(Counted(e, Ones(outs[..FirstStop(outs)])), outs[FirstStop(outs)], s);
    case ResetCard(p, threw, s) =>
      if p && threw.None? {
        assert FilterDebugOutput([]) == [];
      }
    case Submit(p, _) =>
      if p && JsNumber.ParseInt(e.prompt.inputValue, 10).Some? {
        EchoAgrees(e.logs, JsNumber.ParseInt(e.prompt.inputValue, 10).value);
      }
    case ResumeFired(p, o, refresh, s) =>
      if e.prompt.resume.value {
        BeginRunInv(e.(prompt := e.prompt.(resume := None)), p, o, refresh, s);
      } else {
        StepInv(e.(prompt := e.prompt.(resume := None)), p, o, s);
      }
    case _ =>
  }

  /** Every reachable card keeps the invariant: whichever log the console
      panel shows, the regular one never holds a debug line. */
  lemma {:induction false} RunInv(e: Emu, evs: seq<Event>)
    requires Inv(e) && Runs(e, evs)
    ensures Inv(RunAll(e, evs))
    decreases |evs|
  {
    if evs != [] {
      ApplyInv(e, evs[0]);
      RunInv(Apply(e, evs[0]), evs[1..]);
    }
  }

  /** In any reachable card the regular console log holds only clean lines. */
  lemma ReachableRegularClean(evs: seq<Event>)
    requires Runs(Initial, evs)
    ensures forall line :: line in RunAll(Initial, evs).logs.consoleRegular ==> Clean(line)
  {
    InitialInv();
    RunInv(Initial, evs);
    FilterOutputClean(RunAll(Initial, evs).logs.consoleDebug);
  }

  /** The emulator card as a component. Its state hooks are grouped as in
      `Emu`; `loop` also holds the fast-finish ref, the current run's step
      counter and the scheduled frame, and `prompt` the pending resume
      timer. */
  class EmulatorCard {
    var control: Control
    var display: Display
    var logs: Logs
    var prompt: Prompt
    var loop: RunLoop

    function View(): Emu
      reads this
    {
      Emu(control, display, logs, prompt, loop)
    }

    constructor()
      ensures View() == Initial
    {
      control := Initial.control;
      display := Initial.display;
      logs := Initial.logs;
      prompt := Initial.prompt;
      loop := Initial.loop;
    }

    /** `updateRegisterDisplay()`. */
    method UpdateRegisterDisplay(s: Snapshot)
      modifies this
      ensures View() == ApplySnapshot(old(View()), s)
    {
      display := Display(s.registers, s.pc, InstructionText(s.instruction), s.cycles);
      if s.console != "" {
        var lines := ConsoleLines(s.console);
        logs := logs.(consoleDebug := logs.consoleDebug + lines);
        var filtered := FilterDebugOutput(lines);
        if |filtered| > 0 {
          logs := logs.(consoleRegular := logs.consoleRegular + filtered);
        }
      }
    }

    /** The program list's `onChange`. */
    method Select(name: string)
      modifies this
      ensures View() == SelectProgram(old(View()), name)
    {
      control := control.(selectedProgram := name, programLoaded := false, programHalted := false);
      logs := logs.(error := "");
    }

    /** The debug checkbox: only which console log is shown changes. */
    method SetDebugMode(on: bool)
      modifies this
      ensures View() == Apply(old(View()), ToggleDebug(on))
      ensures ShownConsole(View()) == if on then logs.consoleDebug else logs.consoleRegular
    {
      control := control.(debugMode := on);
    }

    /** Typing in the input field. */
    method SetInputValue(text: string)
      requires prompt.showInputDialog && ShownConsole(View()) != []
      modifies this
      ensures View() == Apply(old(View()), Type(text))
    {
      ghost var before := View();
      assert Enabled(before, Type(text));
      prompt := prompt.(inputValue := text);
    }

    /** `loadExampleProgram()`. */
    method LoadExampleProgram(present: bool, outcome: LoadOutcome, s: Snapshot)
      modifies this
      ensures View() == LoadProgram(old(View()), present, outcome, s)
    {
      if !present {
        return;
      }
      match outcome
      case FetchFailed =>
        logs := logs.(error := FetchFailedPrefix + control.selectedProgram);
      case NoHeap =>
        logs := logs.(error := NoHeapMessage);
      case LoadThrew(m) =>
        logs := logs.(error := LoadErrorPrefix + m);
      case ClearThrew(m) =>
        control := control.(programLoaded := true, programHalted := false);
        display := display.(totalCycles := 0);
        logs := Logs(LoadedLog(control.selectedProgram), [], [], logs.error);
        logs := logs.(error := LoadErrorPrefix + m);
      case Loaded(code) =>
        if code == 1 {
          control := control.(programLoaded := true, programHalted := false);
          display := display.(totalCycles := 0);
          logs := Logs(LoadedLog(control.selectedProgram), [], [], logs.error);
          UpdateRegisterDisplay(s);
          logs := logs.(error := "");
        } else {
          logs := logs.(error := LoadFailedMessage);
        }
    }

    /** `stepInstruction()`. */
    method StepInstruction(present: bool, outcome: StepOutcome, s: Snapshot)
      modifies this
      ensures View() == Step(old(View()), present, outcome, s)
    {
      if !present || !control.programLoaded || control.programHalted {
        return;
      }
      match outcome
      case StepThrew(m) =>
        logs := logs.(error := StepThrewPrefix + m);
      case Code(c) =>
        if c == 1 {
          var pc := display.currentPC;
          UpdateRegisterDisplay(s);
          logs := logs.(executionOutput := logs.executionOutput + [StepLine(pc)]);
        } else if c == 2 {
          prompt := prompt.(pausedForInput := false);
          UpdateRegisterDisplay(s);
          prompt := prompt.(showInputDialog := true, inputValue := "");
          logs := logs.(executionOutput := logs.executionOutput + [WaitingForInput]);
        } else if c == 0 {
          control := control.(programHalted := true);
          UpdateRegisterDisplay(s);
          logs := logs.(executionOutput := logs.executionOutput + [StepHaltedLine]);
        } else if c == -1 {
          control := control.(programHalted := true);
          logs := logs.(error := StepErrorMessage, executionOutput := logs.executionOutput + [ExecutionFailed]);
        }
    }

    /** The end of a run on a stopping result, shared by both modes. */
    method SettleRun(o: StepOutcome, s: Snapshot)
      requires Stops(o)
      modifies this
      ensures View() == Settle(old(View()), o, s)
    {
      loop := loop.(frameScheduled := false);
      match o
      case StepThrew(m) =>
        logs := logs.(error := RunThrewPrefix + m, executionOutput := logs.executionOutput + [ErrorLinePrefix + m]);
        control := control.(isRunning := false);
      case Code(c) =>
        if c == 2 {
          prompt := prompt.(pausedForInput := true);
          control := control.(isRunning := false);
          UpdateRegisterDisplay(s);
          prompt := prompt.(showInputDialog := true, inputValue := "");
          logs := logs.(executionOutput := logs.executionOutput + [WaitingForInput]);
        } else {
          control := control.(programHalted := true, isRunning := false);
          loop := loop.(fastFinish := false);
          if c == 0 {
            UpdateRegisterDisplay(s);
            logs := logs.(executionOutput := logs.executionOutput + [HaltedAfter(loop.stepCount)]);
          } else if c == -1 {
            logs := logs.(error := RunErrorMessage, executionOutput := logs.executionOutput + [ExecutionFailed]);
          } else {
            logs := logs.(error := MaxCyclesMessage, executionOutput := logs.executionOutput + [MaxCyclesLine]);
          }
        }
    }

    /** One animated `executeNextStep` frame. */
    method ExecuteNextStep(o: StepOutcome, refresh: bool, s: Snapshot)
      modifies this
      ensures View() == Animate(old(View()), o, refresh, s)
    {
      if Stops(o) {
        SettleRun(o, s);
      } else if o == Code(1) {
        loop := loop.(stepCount := loop.stepCount + 1);
        if refresh {
          UpdateRegisterDisplay(s);
        }
      } else {
        loop := loop.(frameScheduled := false);
      }
    }

    /** `runProgram()`: the guard, the run's start, and its first frame. */
    method RunProgram(present: bool, o: StepOutcome, refresh: bool, s: Snapshot)
      modifies this
      ensures View() == BeginRun(old(View()), present, o, refresh, s)
    {
      if !present || !control.programLoaded || control.programHalted {
        return;
      }
      control := control.(isRunning := true);
      loop := RunLoop(false, 0, true);
      ExecuteNextStep(o, refresh, s);
    }

    /** A frame after the Finish button: `runFastFinish` consumes the
        emulator's results `outs` up to the first stopping one. */
    method RunFastFinishFrame(outs: seq<StepOutcome>, s: Snapshot)
      requires HasStop(outs)
      modifies this
      ensures View() == FastFinish(old(View()), outs, s)
    {
      var steps, stop := RunFastFinish(outs);
      loop := loop.(stepCount := loop.stepCount + steps);
      SettleRun(outs[stop], s);
    }

    /** The Finish button. */
    method Finish()
      modifies this
      ensures View() == RequestFastFinish(old(View()))
    {
      loop := loop.(fastFinish := true);
    }

    /** `resetEmulator()`. */
    method ResetEmulator(present: bool, threw: Option<string>, s: Snapshot)
      modifies this
      ensures View() == Reset(old(View()), present, threw, s)
    {
      if !present {
        return;
      }
      if threw.Some? {
        logs := logs.(error := ResetThrewPrefix + threw.value);
        return;
      }
      control := control.(programHalted := false);
      display := display.(totalCycles := 0);
      UpdateRegisterDisplay(s);
      logs := Logs([ResetLine], [], [], "");
    }

    /** `handleInputSubmit()`. */
    method HandleInputSubmit(present: bool, threw: bool)
      modifies this
      ensures View() == SubmitInput(old(View()), present, threw)
    {
      if !present {
        return;
      }
      var inputNum := JsNumber.ParseInt(prompt.inputValue, 10);
      if inputNum.None? {
        logs := logs.(error := InvalidInteger);
        return;
      }
      var echo := Echo(inputNum.value);
      prompt := prompt.(showInputDialog := false, inputValue := "");
      logs := logs.(consoleDebug := logs.consoleDebug + [echo], consoleRegular := logs.consoleRegular + [echo]);
      if threw {
        // the exception leaves the handler before the timer is set
        return;
      }
      prompt := prompt.(resume := Some(prompt.pausedForInput));
    }

    /** The resume timer armed by an accepted input. */
    method ResumeAfterInput(present: bool, o: StepOutcome, refresh: bool, s: Snapshot)
      requires prompt.resume.Some?
      modifies this
      ensures View() == Resume(old(View()), present, o, refresh, s)
    {
      var wasRunning := prompt.resume.value;
      prompt := prompt.(resume := None);
      if wasRunning {
        RunProgram(present, o, refresh, s);
      } else {
        StepInstruction(present, o, s);
      }
    }
  }
}
