/**
 * The help screen both snapshots of the shell print: which file a `help` command
 * reads, how each line of that file is laid out in fixed-width columns, and which
 * lines are printed.
 */
module HelpFormat {
  import opened Python
  import PyText

  /** The column width of each field; the longest sample command plus one. */
  const HelpCommandSpacing: nat := 35

  const CommandListFile := "command_list.txt"
  const TopicSuffix := "_help.txt"
  const MissingHelpFile := "Missing help file"

  // ---------------------------------------------------------------- which file

  /**
   * The help file a `help` command with arguments `args` reads: the command list
   * without arguments, otherwise the page of the first argument; later arguments
   * are ignored.
   */
  function HelpPath(directory: string, args: seq<string>): string
  {
    if |args| == 0 then directory + CommandListFile
    else directory + args[0] + TopicSuffix
  }

  /**
   * Which page a help path names: `Some(None)` for the command list, `Some(Some(t))`
   * for the page of topic `t`, `None` for a path no `help` command reads.
   */
  function HelpTopic(directory: string, path: string): Option<Option<string>>
  {
    if path == directory + CommandListFile then Some(None)
    else if |directory| + |TopicSuffix| <= |path| && path[..|directory|] == directory
         && path[|path| - |TopicSuffix|..] == TopicSuffix
    then Some(Some(path[|directory|..|path| - |TopicSuffix|]))
    else None
  }

  /**
   * A help path determines the request it came from: the command list is never read
   * for a topic, and two different topics never read the same file.
   */
  lemma HelpPathTopic(directory: string, args: seq<string>)
    ensures HelpTopic(directory, HelpPath(directory, args))
            == Some(if |args| == 0 then None else Some(args[0]))
  {
    if |args| > 0 {
      var path := HelpPath(directory, args);
      var n := |path|;
      assert path[n - |TopicSuffix|..] == TopicSuffix;
      assert path[..|directory|] == directory;
      assert path[|directory|..n - |TopicSuffix|] == args[0];
      if n == |directory| + |CommandListFile| {
        var q := directory + CommandListFile;
        assert q[n - 8] == 'l';
        assert path[n - 8] == 'h';
      }
    }
  }

  // ---------------------------------------------------------------- one line

  /** A field left-justified to the column width. */
  function PadField(field: string): (r: string)
    ensures |r| == if |field| < HelpCommandSpacing then HelpCommandSpacing else |field|
    ensures r[..|field|] == field
    ensures forall i :: |field| <= i < |r| ==> r[i] == ' '
  {
    PyText.LJust(field, HelpCommandSpacing)
  }

  /** The fields of a line that are shown: the first two `@`-separated fields of the stripped line. */
  function KeptFields(line: string): (fields: seq<string>)
    ensures 1 <= |fields| <= 2
    ensures |fields| <= |PyText.Split(PyText.Strip(line), '@')|
    ensures fields == PyText.Split(PyText.Strip(line), '@')[..|fields|]
    ensures |fields| == 1 <==> '@' !in PyText.Strip(line)
  {
    var parts := PyText.Split(PyText.Strip(line), '@');
    if |parts| <= 2 then parts else parts[..2]
  }

  /** The padded fields, concatenated in order. */
  function PadAll(fields: seq<string>): string
  {
    if fields == [] then [] else PadAll(fields[..|fields| - 1]) + PadField(fields[|fields| - 1])
  }

  /** The text printed for one line of a help file, if it is printed at all. */
  function FormatLine(line: string): string
  {
    PadAll(KeptFields(line))
  }

  /**
   * Whether a line of a help file is printed: its formatted text is not all
   * whitespace (`Strip` of it is non-empty exactly then).
   */
  predicate Shown(line: string)
  {
    !PyText.AllSpace(FormatLine(line))
  }

  /** One or two fields, padded, side by side. */
  lemma PadAllShort(f: seq<string>)
    requires 1 <= |f| <= 2
    ensures PadAll(f) == PadField(f[0]) + (if |f| == 2 then PadField(f[1]) else [])
  {
    if |f| == 1 {
      assert f[..0] == [];
    } else {
      assert f[..1] == [f[0]];
      assert f[..1][..0] == [];
    }
  }

  /** A formatted line is its kept fields, each padded, side by side. */
  lemma FormatLineFields(line: string)
    ensures var f := KeptFields(line);
      FormatLine(line) == PadField(f[0]) + (if |f| == 2 then PadField(f[1]) else [])
  {
    PadAllShort(KeptFields(line));
  }

  /** The layout of one or two padded fields side by side. */
  lemma PadAllLayout(f: seq<string>)
    requires 1 <= |f| <= 2
    ensures var r := PadAll(f);
      && |f[0]| <= |r|
      && HelpCommandSpacing <= |r|
      && r[..|f[0]|] == f[0]
      && (|f| == 2 && |f[0]| <= HelpCommandSpacing ==>
            && HelpCommandSpacing + |f[1]| <= |r|
            && r[HelpCommandSpacing..HelpCommandSpacing + |f[1]|] == f[1])
  {
    PadAllShort(f);
    var r := PadAll(f);
    var p0 := PadField(f[0]);
    assert r[..|f[0]|] == p0[..|f[0]|];
    if |f| == 2 && |f[0]| <= HelpCommandSpacing {
      var p1 := PadField(f[1]);
      assert |p0| == HelpCommandSpacing;
      assert r[HelpCommandSpacing..HelpCommandSpacing + |f[1]|] == p1[..|f[1]|];
    }
  }

  /**
   * The layout of a formatted line: the first field starts in column 0 and the line
   * is at least the column width wide; when the first field fits the column, the
   * second field starts exactly at the column width; nothing of either field is cut off.
   */
  lemma FormatLineLayout(line: string)
    ensures var f := KeptFields(line); var r := FormatLine(line);
      && |f[0]| <= |r|
      && HelpCommandSpacing <= |r|
      && r[..|f[0]|] == f[0]
      && (|f| == 2 && |f[0]| <= HelpCommandSpacing ==>
            && HelpCommandSpacing + |f[1]| <= |r|
            && r[HelpCommandSpacing..HelpCommandSpacing + |f[1]|] == f[1])
  {
    PadAllLayout(KeptFields(line));
  }

  /** A line is printed exactly when one of its kept fields is not all whitespace. */
  lemma ShownIffVisibleField(line: string)
    ensures var f := KeptFields(line);
      Shown(line) <==> !PyText.AllSpace(f[0]) || (|f| == 2 && !PyText.AllSpace(f[1]))
  {
    var f := KeptFields(line);
    FormatLineFields(line);
    PyText.LJustBlank(f[0], HelpCommandSpacing);
    if |f| == 1 {
      assert FormatLine(line) == PadField(f[0]) + [];
      assert PadField(f[0]) + [] == PadField(f[0]);
    } else {
      PyText.LJustBlank(f[1], HelpCommandSpacing);
      PyText.AllSpaceConcat(PadField(f[0]), PadField(f[1]));
    }
  }

  /**
   * A line whose stripped text does not start with `@` is always printed: its first
   * field is non-empty and begins with a character that is not whitespace.
   */
  lemma LeadingTextShown(line: string)
    requires PyText.Strip(line) != [] && PyText.Strip(line)[0] != '@'
    ensures Shown(line)
  {
    var t := PyText.Strip(line);
    var f := KeptFields(line);
    var parts := PyText.Split(t, '@');
    assert f[0] == parts[0];
    assert parts[0] != [];
    assert parts[0][0] == t[0];
    ShownIffVisibleField(line);
  }

  /** A blank line of a help file is never printed. */
  lemma BlankLineHidden(line: string)
    requires PyText.AllSpace(line)
    ensures !Shown(line)
  {
    assert PyText.Strip(line) == [];
    assert KeptFields(line) == [[]];
    ShownIffVisibleField(line);
  }

  // ---------------------------------------------------------------- the whole page

  /** The outputs of `f` for each of `xs`, concatenated in order. */
  function FlatMap(f: string -> seq<string>, xs: seq<string>): seq<string>
    decreases |xs|
  {
    if xs == [] then [] else FlatMap(f, xs[..|xs| - 1]) + f(xs[|xs| - 1])
  }

  lemma {:induction false} FlatMapAppend(f: string -> seq<string>, a: seq<string>, b: seq<string>)
    ensures FlatMap(f, a + b) == FlatMap(f, a) + FlatMap(f, b)
    decreases |b|
  {
    if b == [] {
      assert a + b == a;
    } else {
      var b' := b[..|b| - 1];
      assert (a + b)[..|a + b| - 1] == a + b';
      assert (a + b)[|a + b| - 1] == b[|b| - 1];
      FlatMapAppend(f, a, b');
    }
  }

  /** Taking one more element of `xs` appends its outputs. */
  lemma FlatMapNext(f: string -> seq<string>, xs: seq<string>, i: nat)
    requires i < |xs|
    ensures FlatMap(f, xs[..i + 1]) == FlatMap(f, xs[..i]) + f(xs[i])
  {
    assert xs[..i + 1][..i] == xs[..i];
  }

  /** What one line of a help file contributes to the page: its formatted text if it is shown. */
  function Printed(line: string): seq<string>
  {
    if Shown(line) then [FormatLine(line)] else []
  }

  /**
   * What is printed for a help file's lines, in file order: the formatted text of
   * every shown line, once each.
   */
  function HelpPage(lines: seq<string>): seq<string>
  {
    FlatMap(Printed, lines)
  }

  /** The page of a non-empty run of lines ends with what its last line contributes. */
  lemma HelpPageSnoc(lines: seq<string>)
    requires lines != []
    ensures HelpPage(lines) == HelpPage(lines[..|lines| - 1]) + Printed(lines[|lines| - 1])
  {
  }

  /** The page of two runs of lines is the page of the first followed by that of the second. */
  lemma HelpPageAppend(a: seq<string>, b: seq<string>)
    ensures HelpPage(a + b) == HelpPage(a) + HelpPage(b)
  {
    FlatMapAppend(Printed, a, b);
  }

  /** There are never more printed lines than file lines, and every printed line is visible. */
  lemma {:induction false} HelpPageVisible(lines: seq<string>)
    ensures |HelpPage(lines)| <= |lines|
    ensures forall j :: 0 <= j < |HelpPage(lines)| ==> !PyText.AllSpace(HelpPage(lines)[j])
    decreases |lines|
  {
    if lines != [] {
      var init := lines[..|lines| - 1];
      HelpPageSnoc(lines);
      HelpPageVisible(init);
      var page := HelpPage(lines);
      var last := Printed(lines[|lines| - 1]);
      forall j | 0 <= j < |page|
        ensures !PyText.AllSpace(page[j])
      {
        if j < |HelpPage(init)| {
          assert page[j] == HelpPage(init)[j];
        } else {
          assert page[j] == last[j - |HelpPage(init)|];
        }
      }
    }
  }

  /** A single line contributes its formatted text exactly when it is shown. */
  lemma HelpPageOfLine(line: string)
    ensures HelpPage([line]) == Printed(line)
  {
    HelpPageSnoc([line]);
    assert [line][..0] == [];
    assert HelpPage([]) == [];
  }

  /** What reading and printing the file at `path` produces: the printed lines, or the error. */
  function HelpOutcome(files: map<string, string>, path: string): Result<seq<string>, Exc>
  {
    if path in files then Success(HelpPage(PyText.ReadLines(PyText.UniversalNewlines(files[path]))))
    else Failure(FileNotFoundError(MissingHelpFile))
  }

  /** Padding one more field appends it, padded. */
  lemma PadAllNext(fields: seq<string>, k: nat)
    requires k < |fields|
    ensures PadAll(fields[..k + 1]) == PadAll(fields[..k]) + PadField(fields[k])
  {
    assert fields[..k + 1][..k] == fields[..k];
  }

  /** Build the printed text of one help-file line, field by field. */
  method FormatHelpLine(line: string) returns (lineOutput: string)
    ensures lineOutput == FormatLine(line)
  {
    var parts := PyText.Split(PyText.Strip(line), '@');
    var kept := if |parts| <= 2 then parts else parts[..2];
    lineOutput := "";
    var k := 0;
    while k < |kept|
      invariant 0 <= k <= |kept|
      invariant lineOutput == PadAll(kept[..k])
    {
      PadAllNext(kept, k);
      lineOutput := lineOutput + PadField(kept[k]);
      k := k + 1;
    }
    assert kept[..k] == kept;
  }

  /** Format one line and print it unless it came out blank. */
  method PrintLine(line: string) returns (out: seq<string>)
    ensures out == Printed(line)
  {
    var lineOutput := FormatHelpLine(line);
    if |PyText.Strip(lineOutput)| > 0 {
      out := [lineOutput];
    } else {
      out := [];
    }
  }

  /** Print line `i` of `lines` after the page of the lines before it. */
  method PrintNext(lines: seq<string>, i: nat, printed: seq<string>) returns (next: seq<string>)
    requires i < |lines| && printed == HelpPage(lines[..i])
    ensures next == HelpPage(lines[..i + 1])
  {
    var out := PrintLine(lines[i]);
    FlatMapNext(Printed, lines, i);
    next := printed + out;
  }

  /**
   * Print the help file at `path`, one formatted line per shown line of the file.
   * The file system is the map `files` from path to text; the console is the
   * returned sequence of printed lines.
   */
  method PrintHelp(files: map<string, string>, path: string) returns (r: Result<seq<string>, Exc>)
    ensures r == HelpOutcome(files, path)
  {
    if path !in files {
      return Failure(FileNotFoundError(MissingHelpFile));
    }
    var lines := PyText.ReadLines(PyText.UniversalNewlines(files[path]));
    var printed: seq<string> := [];
    var i := 0;
    while i < |lines|
      invariant 0 <= i <= |lines|
      invariant printed == HelpPage(lines[..i])
    {
      printed := PrintNext(lines, i, printed);
      i := i + 1;
    }
    assert lines[..i] == lines;
    return Success(printed);
  }
}
