# Auto-Editor GUI — verified model of the run logic

The program is a small desktop window in front of the `auto-editor` media
tool. The user picks a video file, types a trim margin and chooses an export
format. The window turns these into a command-line argument vector, calls the
tool's Python entry point with the process-wide `sys.stdout`, `sys.stderr`
and `sys.argv` swapped for its own, and shows everything the tool prints in a
log pane. The labels come in English and Japanese.

This project models the part of `gui.py` that has behaviour beyond widget
calls. It has four modules:

- `Translations` (`translations.dfy`): the two string tables, the lookup `tr`
  with its fallback to the key, the language toggle and the choice of the
  start-up language from the system locale.
- `ArgumentBuilder` (`argument_builder.dfy`): the argument vector built from
  the form. The vector is also read back as a file path followed by
  (flag, value) pairs, and the lemmas say which flags occur, how often, with
  which value and in which order.
- `OutputCapture` (`output_capture.dfy`): the log pane as the sequence of
  texts inserted at its end, and `OutputRedirector`, the stream stand-in that
  appends to it.
- `EditorApp` (`editor_app.dfy`): the interpreter's globals (class `Sys`) and
  the window (class `App`). `App` holds the form, the language, the run
  button's state and the log pane. Its methods are the run request, the
  worker body `ExecuteInternal` with its save, install, invoke and restore
  steps, and the sequential composition `Run` of the two.

The editing tool is a parameter `tool: seq<string> -> ToolRun`. It reads the
argument vector installed in `sys.argv`. It produces a run of writes to
standard output or standard error, and it ends in one of three ways: it
returns normally, it raises `SystemExit` with a code, or it raises another
exception with a message. Python's `float()` is a parameter
`parsesAsFloat: string -> bool`. The model does not spell out its grammar.

Two details of the code are easy to miss:

- The missing-module branch (gui.py:193-196) logs only `error_import` and
  re-enables the button. It does not log `finished`.
  `EditorApp.App.ExecuteInternal` models that.
- The `sec` suffix is added whenever `float()` accepts the margin text, which
  includes `inf`, `nan`, exponents and surrounding blanks. The model keeps
  `float()` abstract.

## Model

| member | source | states |
|---|---|---|
| `Translations.Tr` | gui.py:139-140 | The result is the current language's entry when the key is in that table, and the key itself otherwise. |
| `Translations.Toggled` | gui.py:142-143 | The new language differs from the old one, and it is Japanese exactly when the old one was English. |
| `Translations.ToggleTwice` | gui.py:142-143 | Toggling twice restores the language. |
| `Translations.TablesAgreeOnKeys` | gui.py:18-47 | The English and Japanese tables have the same key set, and it is exactly the set of keys the window uses. |
| `Translations.UsedKeysTranslated` | gui.py:146-154 | For every key the window asks for, in either language, the lookup finds a table entry and never falls back to the key. |
| `Translations.StartLanguage` | gui.py:68-69 | The start-up language is Japanese exactly when the locale is set and its name begins with "ja". |
| `ArgumentBuilder.MarginValue` | gui.py:175-180 | The margin value starts with the margin text unchanged. What follows it is "sec" when `float()` accepts the text, and nothing otherwise. |
| `ArgumentBuilder.Arguments` | gui.py:173-184 | The file path comes first and unchanged. The `--margin` pair comes right after it exactly when the margin text is non-empty. The `--export` pair closes the vector exactly when the choice is not "default". The length is 1, 3 or 5 to match. |
| `ArgumentBuilder.BuildArguments` | gui.py:170-184 | Building the list step by step with `extend` gives exactly the vector `Arguments` describes. |
| `ArgumentBuilder.OptionsOfArguments` | gui.py:173-184 | Read back as pairs after the file path, the vector holds the margin option when the margin text is non-empty, then the export option when the choice is not the default, and nothing else. |
| `ArgumentBuilder.MarginOption` | gui.py:175-181 | `--margin` occurs once when the margin text is non-empty and never otherwise. Its value is the text followed by "sec" when `float()` accepts the text, and the bare text otherwise. |
| `ArgumentBuilder.ExportOption` | gui.py:183-184 | `--export` occurs once, with the chosen format as its value, when the choice is not "default". It is absent otherwise. |
| `ArgumentBuilder.ScenarioMarginOnly` | gui.py:173-181 | "clip.mp4" with margin "0.2" and the default export gives ["clip.mp4", "--margin", "0.2sec"]. |
| `ArgumentBuilder.ScenarioExportOnly` | gui.py:173-184 | "clip.mov" with an empty margin and the "premiere" export gives ["clip.mov", "--export", "premiere"]. |
| `OutputCapture.JoinAppend` | gui.py:220-224 | The text shown after more insertions is the earlier text followed by the inserted texts. |
| `OutputCapture.ShownTextGrows` | gui.py:220-224 | The text shown before further insertions is a prefix of the text shown after them. |
| `OutputCapture.Textbox.Insert` | gui.py:222 | An insertion appends one piece at the end. The shown text becomes the old text followed by that piece. |
| `OutputCapture.OutputRedirector.constructor` | gui.py:50-52 | A redirector writes into the pane it is given and reports "utf-8" as its encoding. |
| `OutputCapture.OutputRedirector.Write` | gui.py:54-58 | A write appends its text verbatim to the end of the redirector's pane and changes nothing else. |
| `EditorApp.Decimal` | gui.py:210 | The numeral of an exit status is a string of decimal digits: one digit below 10, and no leading zero for any positive number. |
| `EditorApp.DecimalRoundTrip` | gui.py:210 | The numeral of a number reads back as that number. |
| `EditorApp.Render` | gui.py:210 | An absent exit code renders as "None". A number renders as its canonical decimal numeral `Decimal`, which reads back as the number, with a leading "-" when it is negative. A text renders as itself. |
| `EditorApp.Report` | gui.py:209-212 | A normal return logs no line. An exit logs one line: "\nExit code: ", then the rendered code, then "\n". Any other error logs one line: "\nError: ", then the message, then "\n". |
| `EditorApp.ReportExitOne` | gui.py:209-210 | A tool that exits with code 1 leaves the log line "\nExit code: 1\n". |
| `EditorApp.App.constructor` | gui.py:64-136 | A new window starts with the language chosen from the locale, an empty path, the margin "0.2", the first export entry, an empty log and the run button enabled. |
| `EditorApp.App.Log` | gui.py:220-224 | A message is appended verbatim to the end of the log. |
| `EditorApp.App.ToggleLanguage` | gui.py:142-143 | The language becomes the toggled one, and nothing else changes. |
| `EditorApp.App.Browse` | gui.py:159-162 | A non-empty selection replaces the file path. An empty one leaves the path unchanged. |
| `EditorApp.App.RunRequest` | gui.py:164-187 | A run starts exactly when the file path is non-empty. With an empty path, exactly one `error_file` line is logged and the button state is unchanged. Otherwise the built arguments are returned, one `running` line is logged and the button is disabled. |
| `EditorApp.App.Invoke` | gui.py:203-208 | With both streams redirected into the log, the tool sees the installed argument vector. Each of its writes lands at the end of the log, in order. The call's outcome is the tool's outcome. |
| `EditorApp.App.ExecuteInternal` | gui.py:192-218 | The button ends enabled and the three globals end as they were, for every outcome. Without the module, only `error_import` is logged and `sys` is untouched. Otherwise the tool runs on ["auto-editor"] + args. The log then grows by the tool's writes, the exit or error line, and `finished` as its last entry. |
| `EditorApp.App.Run` | gui.py:164-218 | A run request followed by the worker leaves the globals as they were. With an empty path, only the `error_file` line is logged. Otherwise the button ends enabled, and the log grows by `running` and then the worker's lines. |

## Left out

- Widget construction, layout, fonts, appearance-mode switching and the relabelling in `update_ui_text` (gui.py:14-15, 71-137, 146-157) are left out. They are calls into the UI library with nothing to state beyond those calls. `UsedKeysTranslated` covers the one fact relabelling relies on.
- The `configure(state=...)` toggles around each insert and the `see("end")` scrolling are left out. They do not change the log's content.
- The native file dialog is left out. `Browse` takes the dialog's answer, which is empty when the dialog is cancelled.
- The worker thread is left out. `ExecuteInternal` runs as a sequential call after `RunRequest`, and `Run` composes the two. The language button stays live while a worker runs, so a toggle can change which table `finished` or `error_import` is read from; the model keeps `lang` fixed for the whole `Run`. The run button is disabled from the run request until the worker's last statement. That disabled button, not `RunRequest`, keeps a second run from starting, and the model does not represent the button's click handling.
- Python's `float()` is a parameter. Its grammar (blanks, exponents, `inf`, `nan`, underscores) is not modelled.
- `auto_editor.__main__.main` is a parameter. Its media processing is out of scope. The import attempt at start-up (gui.py:9-12) is the `toolInstalled` flag.
- Exceptions outside `Exception`, such as `KeyboardInterrupt`, are left out. For these the `finally` block would still restore the globals and log `finished`, and the exception would then end the worker thread.
- `EditorApp.Render` covers the exit codes `None`, integers and strings. Other objects passed to `SystemExit`, including `True` and `False`, are not modelled.
- Writes that reach a stream other than a redirector, such as the original terminal, are left out.
- The system locale lookup at start-up is an environment read. The constructor takes its result as a parameter, and only the choice of language is modelled.
- `OutputRedirector.flush` (gui.py:60-61) is a method that changes nothing, and its model `Flush` has an empty body.
