/** The argument vector handed to the editing tool, built from the form:
    the file path, the margin text and the export choice. */
module ArgumentBuilder {

  datatype Option<T> = None | Some(value: T)

  const MarginFlag: string := "--margin"
  const ExportFlag: string := "--export"
  /** The unit appended to a margin that reads as a number. */
  const SecondsSuffix: string := "sec"
  /** The export choice that adds no flag. */
  const DefaultExport: string := "default"
  /** The entries of the export menu, the first one selected at start-up. */
  const ExportChoices: seq<string> :=
    ["default", "premiere", "resolve", "final-cut-pro", "shotcut", "kdenlive", "clip-sequence"]

  /** The value passed with the margin flag. `parsesAsFloat` stands for
      whether Python's float() accepts the text. */
  function MarginValue(margin: string, parsesAsFloat: string -> bool): (value: string)
    ensures margin <= value
    ensures value[|margin|..] == if parsesAsFloat(margin) then SecondsSuffix else ""
  {
    if parsesAsFloat(margin) then margin + SecondsSuffix else margin
  }

  /** The argument vector for a form whose file path is set: the path first
      and unchanged, then the margin pair straight after it when the margin
      text is not empty, and the export pair closing the vector when the
      choice is not the default. */
  function Arguments(filePath: string, margin: string, exportFormat: string,
                     parsesAsFloat: string -> bool): (args: seq<string>)
    ensures |args| == 1 + (if margin != "" then 2 else 0) + (if exportFormat != DefaultExport then 2 else 0)
    ensures args[0] == filePath
    ensures margin != "" ==> args[1] == MarginFlag && args[2] == MarginValue(margin, parsesAsFloat)
    ensures exportFormat != DefaultExport ==> args[|args| - 2] == ExportFlag && args[|args| - 1] == exportFormat
  {
    [filePath]
    + (if margin != "" then [MarginFlag, MarginValue(margin, parsesAsFloat)] else [])
    + (if exportFormat != DefaultExport then [ExportFlag, exportFormat] else [])
  }

  /** The same vector, built the way the front-end builds it: start from the
      file path and extend the list with each pair that applies. */
  method BuildArguments(filePath: string, margin: string, exportFormat: string,
                        parsesAsFloat: string -> bool) returns (args: seq<string>)
    ensures args == Arguments(filePath, margin, exportFormat, parsesAsFloat)
  {
    args := [filePath];
    if margin != "" {
      var value := margin;
      if parsesAsFloat(margin) {
        value := value + SecondsSuffix;
      }
      args := args + [MarginFlag, value];
    }
    if exportFormat != DefaultExport {
      args := args + [ExportFlag, exportFormat];
    }
  }

  // ---------------------------------------------------------------------------
  // Reading the vector back: after the leading file path, the vector is a run
  // of (flag, value) pairs, which is how the editing tool consumes it.

  datatype Opt = Opt(flag: string, value: string)

  /** Consecutive (flag, value) pairs of a sequence of words. */
  function Pairs(words: seq<string>): (opts: seq<Opt>)
    ensures |opts| == |words| / 2
    decreases |words|
  {
    if |words| < 2 then [] else [Opt(words[0], words[1])] + Pairs(words[2..])
  }

  /** The options of an argument vector: the pairs after the file path. */
  function Options(args: seq<string>): seq<Opt>
    requires |args| >= 1
  {
    Pairs(args[1..])
  }

  /** How many options carry the given flag. */
  function Count(opts: seq<Opt>, flag: string): nat
  {
    if opts == [] then 0
    else (if opts[0].flag == flag then 1 else 0) + Count(opts[1..], flag)
  }

  /** The value of the first option with the given flag, if any. */
  function ValueOf(opts: seq<Opt>, flag: string): Option<string>
  {
    if opts == [] then None
    else if opts[0].flag == flag then Some(opts[0].value)
    else ValueOf(opts[1..], flag)
  }

  /** Pairing distributes over concatenation when the first part has even length. */
  lemma {:induction false} PairsAppend(a: seq<string>, b: seq<string>)
    requires |a| % 2 == 0
    ensures Pairs(a + b) == Pairs(a) + Pairs(b)
    decreases |a|
  {
    if |a| == 0 {
      assert a + b == b;
    } else {
      assert (a + b)[2..] == a[2..] + b;
      PairsAppend(a[2..], b);
    }
  }

  /** The options of the built vector: the margin pair when the margin text is
      not empty, then the export pair when the choice is not the default. */
  lemma OptionsOfArguments(filePath: string, margin: string, exportFormat: string,
                           parsesAsFloat: string -> bool)
    ensures Options(Arguments(filePath, margin, exportFormat, parsesAsFloat))
         == (if margin != "" then [Opt(MarginFlag, MarginValue(margin, parsesAsFloat))] else [])
          + (if exportFormat != DefaultExport then [Opt(ExportFlag, exportFormat)] else [])
  {
    var args := Arguments(filePath, margin, exportFormat, parsesAsFloat);
    var m := if margin != "" then [MarginFlag, MarginValue(margin, parsesAsFloat)] else [];
    var e := if exportFormat != DefaultExport then [ExportFlag, exportFormat] else [];
    assert args[1..] == m + e;
    PairsAppend(m, e);
    if m != [] { assert m[2..] == []; }
    if e != [] { assert e[2..] == []; }
  }

  /** The margin flag appears once, followed by the margin text (with the unit
      when the text reads as a number), exactly when the text is not empty. */
  lemma MarginOption(filePath: string, margin: string, exportFormat: string,
                     parsesAsFloat: string -> bool)
    ensures var opts := Options(Arguments(filePath, margin, exportFormat, parsesAsFloat));
      && Count(opts, MarginFlag) == (if margin == "" then 0 else 1)
      && ValueOf(opts, MarginFlag)
         == (if margin == "" then None
             else if parsesAsFloat(margin) then Some(margin + SecondsSuffix)
             else Some(margin))
  {
    OptionsOfArguments(filePath, margin, exportFormat, parsesAsFloat);
    var opts := Options(Arguments(filePath, margin, exportFormat, parsesAsFloat));
    if margin != "" && exportFormat != DefaultExport {
      assert MarginFlag[2] != ExportFlag[2];
      assert opts[1..] == [Opt(ExportFlag, exportFormat)];
      assert opts[1..][1..] == [];
      assert Count(opts[1..], MarginFlag) == 0;
    }
  }

  /** The export flag appears once, followed by the choice, exactly when the
      choice is not the default. */
  lemma ExportOption(filePath: string, margin: string, exportFormat: string,
                     parsesAsFloat: string -> bool)
    ensures var opts := Options(Arguments(filePath, margin, exportFormat, parsesAsFloat));
      && Count(opts, ExportFlag) == (if exportFormat == DefaultExport then 0 else 1)
      && ValueOf(opts, ExportFlag)
         == (if exportFormat == DefaultExport then None else Some(exportFormat))
  {
    OptionsOfArguments(filePath, margin, exportFormat, parsesAsFloat);
    var opts := Options(Arguments(filePath, margin, exportFormat, parsesAsFloat));
    if margin != "" && exportFormat != DefaultExport {
      assert MarginFlag[2] != ExportFlag[2];
      assert opts[0].flag != ExportFlag;
      assert opts[1..] == [Opt(ExportFlag, exportFormat)];
      assert opts[1..][1..] == [];
      assert Count(opts[1..], ExportFlag) == 1;
    }
  }

  /** A form with the margin "0.2" (which float() accepts) and the default
      export gives the file path and a margin in seconds. */
  lemma ScenarioMarginOnly(parsesAsFloat: string -> bool)
    requires parsesAsFloat("0.2")
    ensures Arguments("clip.mp4", "0.2", "default", parsesAsFloat) == ["clip.mp4", "--margin", "0.2sec"]
  {
    assert "0.2" + SecondsSuffix == "0.2sec";
  }

  /** A form with no margin and the Premiere export gives the file path and the export pair. */
  lemma ScenarioExportOnly(parsesAsFloat: string -> bool)
    ensures Arguments("clip.mov", "", "premiere", parsesAsFloat) == ["clip.mov", "--export", "premiere"]
  {
  }
}
