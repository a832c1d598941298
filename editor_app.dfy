/** The application window's behaviour once the widgets are set aside: the
    form, the run button's state, the log, the process-wide streams and
    argument vector, and one run of the editing tool. */
module EditorApp {
  import opened Translations
  import opened ArgumentBuilder
  import opened OutputCapture

  /** The word placed before the built arguments in the process's argument vector. */
  const ProgramName: string := "auto-editor"

  // ---------------------------------------------------------------------------
  // The editing tool, seen from outside.

  /** The status carried by a request to exit: none, a number, or a text. */
  datatype ExitCode = NoCode | Number(n: int) | Message(text: string)

  /** How a call of the tool's entry point ends: it returns, it asks to exit,
      or it raises some other error carrying a message. */
  datatype Outcome = Normal | Exit(code: ExitCode) | Error(message: string)

  /** One write the tool makes while it runs, to its standard output or error. */
  datatype Chunk = ToStdout(text: string) | ToStderr(text: string)

  /** Everything one call of the tool does that the front-end can observe. */
  datatype ToolRun = ToolRun(output: seq<Chunk>, outcome: Outcome)

  /** The texts of the tool's writes, in order. */
  function Texts(output: seq<Chunk>): (texts: seq<string>)
    ensures |texts| == |output|
    ensures forall i :: 0 <= i < |output| ==> texts[i] == output[i].text
  {
    if output == [] then [] else [output[0].text] + Texts(output[1..])
  }

  // ---------------------------------------------------------------------------
  // Writing an exit status the way Python's string formatting does.

  function DigitChar(d: nat): (c: char)
    requires d < 10
    ensures '0' <= c <= '9' && c as int - '0' as int == d
  {
    ('0' as int + d) as char
  }

  /** The decimal numeral of a natural number. */
  function Decimal(n: nat): (s: string)
    ensures |s| >= 1
    ensures forall i :: 0 <= i < |s| ==> '0' <= s[i] <= '9'
    ensures n < 10 ==> |s| == 1
    ensures n >= 1 ==> s[0] != '0'
    decreases n
  {
    if n < 10 then [DigitChar(n)] else Decimal(n / 10) + [DigitChar(n % 10)]
  }

  /** The number a string of decimal digits denotes. */
  function DecimalValue(s: string): int
  {
    if s == [] then 0 else 10 * DecimalValue(s[..|s| - 1]) + (s[|s| - 1] as int - '0' as int)
  }

  /** The numeral reads back as the number written. */
  lemma {:induction false} DecimalRoundTrip(n: nat)
    ensures DecimalValue(Decimal(n)) == n
    decreases n
  {
    if n >= 10 {
      var s := Decimal(n);
      assert s[..|s| - 1] == Decimal(n / 10);
      DecimalRoundTrip(n / 10);
    }
  }

  /** The exit status as it appears in the log: "None" when there is none, the
      signed decimal numeral of a number, and a text as it is. */
  function Render(code: ExitCode): (s: string)
    ensures code.NoCode? ==> s == "None"
    ensures code.Number? && code.n >= 0 ==> s == Decimal(code.n) && DecimalValue(s) == code.n
    ensures code.Number? && code.n < 0 ==>
      s == "-" + Decimal(-code.n) && DecimalValue(s[1..]) == -code.n
    ensures code.Message? ==> s == code.text
  {
    match code
    case NoCode => "None"
    case Number(n) =>
      if n >= 0 then DecimalRoundTrip(n); Decimal(n)
      else DecimalRoundTrip(-n); assert ("-" + Decimal(-n))[1..] == Decimal(-n); "-" + Decimal(-n)
    case Message(text) => text
  }

  /** The lines logged about how the call ended, before the closing message:
      none after a normal return, one line framing the exit status or the
      error message otherwise. */
  function Report(outcome: Outcome): (lines: seq<string>)
    ensures |lines| <= 1
    ensures lines == [] <==> outcome.Normal?
    ensures outcome.Exit? ==> var prefix := "\nExit code: ";
      && prefix <= lines[0]
      && lines[0][|prefix|..] == Render(outcome.code) + "\n"
    ensures outcome.Error? ==> var prefix := "\nError: ";
      && prefix <= lines[0]
      && lines[0][|prefix|..] == outcome.message + "\n"
  {
    match outcome
    case Normal => []
    case Exit(code) => ["\nExit code: " + Render(code) + "\n"]
    case Error(message) => ["\nError: " + message + "\n"]
  }

  /** A tool that asks to exit with status 1 leaves the line "Exit code: 1". */
  lemma ReportExitOne()
    ensures Report(Exit(Number(1))) == ["\nExit code: 1\n"]
  {
    assert Render(Number(1)) == Decimal(1) == "1";
    assert "\nExit code: " + "1" + "\n" == "\nExit code: 1\n";
  }

  // ---------------------------------------------------------------------------
  // Process-wide state.

  /** Where a standard stream goes: somewhere outside the window, or into a log pane. */
  datatype Stream = Terminal(name: string) | Redirected(redirector: OutputRedirector)

  /** The interpreter's global standard output, standard error and argument vector. */
  class Sys {
    var stdout: Stream
    var stderr: Stream
    var argv: seq<string>

    constructor (stdout: Stream, stderr: Stream, argv: seq<string>)
      ensures this.stdout == stdout && this.stderr == stderr && this.argv == argv
    {
      this.stdout := stdout;
      this.stderr := stderr;
      this.argv := argv;
    }
  }

  // ---------------------------------------------------------------------------
  // The application.

  class App {
    var lang: Lang
    /** The form: the chosen file, the margin entry and the export menu. */
    var filePath: string
    var margin: string
    var exportFormat: string
    /** Whether the run button accepts clicks. */
    var runEnabled: bool
    /** The log pane. */
    const textbox: Textbox
    /** The interpreter's globals, shared with everything else in the process. */
    const sys: Sys
    /** Whether the editing tool could be imported when the program started. */
    const toolInstalled: bool

    /** A fresh window: the start-up language follows the system locale, the
        margin entry holds "0.2", the export menu shows its first entry, the
        log is empty and the run button is enabled. */
    constructor (locale: Locale, sys: Sys, toolInstalled: bool)
      ensures lang == StartLanguage(locale)
      ensures filePath == "" && margin == "0.2" && exportFormat == ExportChoices[0]
      ensures runEnabled
      ensures fresh(textbox) && textbox.chunks == []
      ensures this.sys == sys && this.toolInstalled == toolInstalled
    {
      lang := StartLanguage(locale);
      filePath := "";
      margin := "0.2";
      exportFormat := ExportChoices[0];
      runEnabled := true;
      textbox := new Textbox();
      this.sys := sys;
      this.toolInstalled := toolInstalled;
    }

    /** Append a message, verbatim, to the end of the log. */
    method Log(message: string)
      modifies textbox
      ensures textbox.chunks == old(textbox.chunks) + [message]
    {
      textbox.Insert(message);
    }

    /** Switch between English and Japanese. */
    method ToggleLanguage()
      modifies this`lang
      ensures lang == Toggled(old(lang))
    {
      lang := Toggled(lang);
    }

    /** The file chooser closed: a selection replaces the path, a cancelled
        chooser (an empty answer) leaves it as it was. */
    method Browse(selection: string)
      modifies this`filePath
      ensures filePath == if selection != "" then selection else old(filePath)
    {
      if selection != "" {
        filePath := selection;
      }
    }

    /** The run button was pressed. With no file chosen, one error line is
        logged and nothing else happens. Otherwise the arguments are built,
        "running" is logged, the button is disabled and the caller is to
        start ExecuteInternal with `args`. `parsesAsFloat` stands for
        whether Python's float() accepts a text. */
    method RunRequest(parsesAsFloat: string -> bool) returns (started: bool, args: seq<string>)
      modifies this`runEnabled, textbox
      ensures started <==> filePath != ""
      ensures !started ==> textbox.chunks == old(textbox.chunks) + [Tr(lang, "error_file")]
      ensures !started ==> runEnabled == old(runEnabled) && args == []
      ensures started ==> args == Arguments(filePath, margin, exportFormat, parsesAsFloat)
      ensures started ==> textbox.chunks == old(textbox.chunks) + [Tr(lang, "running")]
      ensures started ==> !runEnabled
    {
      if filePath == "" {
        Log(Tr(lang, "error_file"));
        return false, [];
      }
      args := BuildArguments(filePath, margin, exportFormat, parsesAsFloat);
      Log(Tr(lang, "running"));
      runEnabled := false;
      started := true;
    }

    /** Call the tool's entry point while both standard streams write into
        the log pane: the tool reads the installed argument vector, and every
        write it makes lands at the end of the log, in order. */
    method Invoke(tool: seq<string> -> ToolRun) returns (outcome: Outcome)
      requires sys.stdout.Redirected? && sys.stdout.redirector.textWidget == textbox
      requires sys.stderr.Redirected? && sys.stderr.redirector.textWidget == textbox
      modifies textbox
      ensures outcome == tool(sys.argv).outcome
      ensures textbox.chunks == old(textbox.chunks) + Texts(tool(sys.argv).output)
    {
      var run := tool(sys.argv);
      var i := 0;
      while i < |run.output|
        invariant 0 <= i <= |run.output|
        invariant textbox.chunks == old(textbox.chunks) + Texts(run.output[..i])
      {
        match run.output[i] {
          case ToStdout(text) => sys.stdout.redirector.Write(text);
          case ToStderr(text) => sys.stderr.redirector.Write(text);
        }
        assert run.output[..i + 1] == run.output[..i] + [run.output[i]];
        assert Texts(run.output[..i + 1]) == Texts(run.output[..i]) + [run.output[i].text];
        i := i + 1;
      }
      assert run.output[..i] == run.output;
      outcome := run.outcome;
    }

    /** The worker's body. Without the tool, log the import error and enable
        the button again, touching no global. With it: save the streams and
        the argument vector, install two redirectors into the log and the
        vector "auto-editor" followed by `args`, call the tool, log how it
        ended, put the three globals back, log "finished" and enable the
        button again. */
    method ExecuteInternal(args: seq<string>, tool: seq<string> -> ToolRun)
      modifies this`runEnabled, textbox, sys
      ensures runEnabled
      ensures sys.stdout == old(sys.stdout) && sys.stderr == old(sys.stderr)
      ensures sys.argv == old(sys.argv)
      ensures !toolInstalled ==> unchanged(sys)
      ensures !toolInstalled ==> textbox.chunks == old(textbox.chunks) + [Tr(lang, "error_import")]
      ensures toolInstalled ==>
        var run := tool([ProgramName] + args);
        textbox.chunks == old(textbox.chunks) + Texts(run.output) + Report(run.outcome) + [Tr(lang, "finished")]
      ensures toolInstalled ==> textbox.chunks[|textbox.chunks| - 1] == Tr(lang, "finished")
    {
      if !toolInstalled {
        Log(Tr(lang, "error_import"));
        runEnabled := true;
        return;
      }

      var originalStdout, originalStderr, originalArgv := sys.stdout, sys.stderr, sys.argv;
      var out := new OutputRedirector(textbox);
      var err := new OutputRedirector(textbox);
      sys.stdout := Redirected(out);
      sys.stderr := Redirected(err);
      sys.argv := [ProgramName] + args;

      ghost var before := textbox.chunks;
      ghost var run := tool([ProgramName] + args);
      var outcome := Invoke(tool);
      assert textbox.chunks == before + Texts(run.output);
      var report := Report(outcome);
      if report != [] {
        Log(report[0]);
      }
      assert textbox.chunks == before + Texts(run.output) + Report(run.outcome);

      sys.stdout := originalStdout;
      sys.stderr := originalStderr;
      sys.argv := originalArgv;
      Log(Tr(lang, "finished"));
      runEnabled := true;
    }

    /** A run request followed, when it starts one, by the worker's whole
        run. Whatever happens the globals end as they were; a started run
        ends with the button enabled. */
    method Run(parsesAsFloat: string -> bool, tool: seq<string> -> ToolRun)
      modifies this`runEnabled, textbox, sys
      ensures sys.stdout == old(sys.stdout) && sys.stderr == old(sys.stderr)
      ensures sys.argv == old(sys.argv)
      ensures filePath == "" ==>
        textbox.chunks == old(textbox.chunks) + [Tr(lang, "error_file")]
        && runEnabled == old(runEnabled) && unchanged(sys)
      ensures filePath != "" ==> runEnabled
      ensures filePath != "" && !toolInstalled ==>
        textbox.chunks == old(textbox.chunks) + [Tr(lang, "running"), Tr(lang, "error_import")]
      ensures filePath != "" && toolInstalled ==>
        var run := tool([ProgramName] + Arguments(filePath, margin, exportFormat, parsesAsFloat));
        textbox.chunks == old(textbox.chunks) + [Tr(lang, "running")] + Texts(run.output)
                          + Report(run.outcome) + [Tr(lang, "finished")]
    {
      var started, args := RunRequest(parsesAsFloat);
      if started {
        ExecuteInternal(args, tool);
      }
    }
  }
}
