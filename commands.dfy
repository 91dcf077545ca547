/** The s3270 action lines the client sends (p3270/p3270.py, class
    P3270Client): one text per operation, written as Name(arg, ...). Each
    builder is a function of the operation's arguments. ParseCall reads an
    action line back into its name and its arguments, split at commas with
    leading blanks trimmed. This is a model of how s3270 reads an action,
    not s3270's own grammar. With it, every builder can be shown to transmit
    the arguments it was given. */
module Commands {
  import opened Wrappers
  import opened Text

  // ---- action lines and reading them back ----

  /** The text name(args) with the arguments separated by sep. */
  function Call(name: string, args: seq<string>, sep: string): string {
    name + "(" + Join(args, sep) + ")"
  }

  /** An action as the emulator sees it. */
  datatype CallForm = CallForm(name: string, args: seq<string>)

  /** The index of the first c in s, or |s| when there is none. */
  function IndexOf(s: string, c: char): (k: nat)
    ensures k <= |s|
    ensures forall i :: 0 <= i < k ==> s[i] != c
    ensures k < |s| ==> s[k] == c
    decreases |s|
  {
    if |s| == 0 then 0 else if s[0] == c then 0 else 1 + IndexOf(s[1..], c)
  }

  /** s without its leading blanks. */
  function TrimSpaces(s: string): (r: string)
    ensures |r| <= |s|
    decreases |s|
  {
    if |s| > 0 && s[0] == ' ' then TrimSpaces(s[1..]) else s
  }

  /** The name before the first parenthesis, and the comma-separated
      arguments up to the closing one at the end, each without leading
      blanks; None when the line is not of that form. */
  function ParseCall(cmd: string): Option<CallForm> {
    var k := IndexOf(cmd, '(');
    if k == |cmd| || cmd[|cmd| - 1] != ')' then None
    else
      Some(CallForm(cmd[..k], Arguments(cmd[k + 1..|cmd| - 1])))
  }

  /** The text between the parentheses, split at commas, each piece without
      its leading blanks. */
  function Arguments(inner: string): (args: seq<string>)
    ensures |args| >= 1
  {
    var fields := Split(inner, ',');
    seq(|fields|, i requires 0 <= i < |fields| => TrimSpaces(fields[i]))
  }

  /** An argument that reads back as itself: no comma, no leading blank. */
  predicate PlainArg(a: string) {
    ',' !in a && (|a| == 0 || a[0] != ' ')
  }

  lemma {:induction false} IndexOfAfter(a: string, t: string, c: char)
    requires c !in a
    requires |t| > 0 && t[0] == c
    ensures IndexOf(a + t, c) == |a|
    decreases |a|
  {
    if |a| > 0 {
      assert a[0] in a;
      assert (a + t)[1..] == a[1..] + t;
      assert c !in a[1..] by {
        forall i | 0 <= i < |a[1..]| ensures a[1..][i] != c {
          assert a[1..][i] == a[i + 1];
        }
      }
      IndexOfAfter(a[1..], t, c);
    }
  }

  /** The arguments with a blank in front of all but the first. */
  function Spaced(args: seq<string>): (r: seq<string>)
    ensures |r| == |args|
  {
    seq(|args|, i requires 0 <= i < |args| => if i == 0 then args[0] else " " + args[i])
  }

  /** Separating by ", " is separating by "," with a blank before each later argument. */
  lemma {:induction false} JoinSpaced(args: seq<string>)
    requires |args| >= 1
    ensures Join(args, ", ") == Join(Spaced(args), ",")
    decreases |args|
  {
    if |args| > 1 {
      var rest := args[1..];
      JoinSpaced(rest);
      var sp := Spaced(args);
      assert sp[1..] == [" " + rest[0]] + Spaced(rest)[1..];
      JoinExtendFirst(" ", Spaced(rest), ",");
      assert Join(args, ", ") == args[0] + ", " + Join(rest, ", ");
      assert Join(sp, ",") == sp[0] + "," + Join(sp[1..], ",");
      assert args[0] + ", " + Join(rest, ", ") == args[0] + "," + (" " + Join(rest, ", "));
    }
  }

  lemma TrimSpaced(a: string)
    requires |a| == 0 || a[0] != ' '
    ensures TrimSpaces(" " + a) == a && TrimSpaces(a) == a
  {
    assert (" " + a)[1..] == a;
  }

  /** The name is what precedes the first parenthesis, and the arguments
      are read from what lies between it and the last character. */
  lemma CallParts(name: string, inner: string)
    requires '(' !in name
    ensures ParseCall(name + "(" + inner + ")") == Some(CallForm(name, Arguments(inner)))
  {
    var cmd := name + "(" + inner + ")";
    assert cmd == name + ("(" + inner + ")");
    IndexOfAfter(name, "(" + inner + ")", '(');
    assert cmd[..|name|] == name;
    assert cmd[|name| + 1..|cmd| - 1] == inner;
    assert cmd[|cmd| - 1] == ')';
  }

  /** Plain arguments joined by either separator split back into themselves. */
  lemma ArgumentsOfJoin(args: seq<string>, sep: string)
    requires |args| >= 1 && forall i :: 0 <= i < |args| ==> PlainArg(args[i])
    requires sep == "," || sep == ", "
    ensures Arguments(Join(args, sep)) == args
  {
    var j := Join(args, sep);
    var fs := if sep == "," then args else Spaced(args);
    if sep == ", " {
      JoinSpaced(args);
    }
    assert j == Join(fs, ",");
    forall i | 0 <= i < |fs| ensures ',' !in fs[i] {
      if sep == ", " && i > 0 {
        assert fs[i] == " " + args[i];
        assert PlainArg(args[i]);
        assert forall k :: 0 <= k < |fs[i]| ==> fs[i][k] == ' ' || fs[i][k] in args[i];
      }
    }
    SplitJoin(fs, ',');
    var fields := Split(j, ',');
    assert fields == fs;
    var trimmed := Arguments(j);
    forall i | 0 <= i < |fields| ensures trimmed[i] == args[i] {
      TrimSpaced(args[i]);
      if sep == ", " && i > 0 {
        assert fields[i] == " " + args[i];
      }
    }
  }

  /** An action line built from plain arguments reads back as the same name
      and the same arguments, with either separator the client uses. */
  lemma CallRoundTrip(name: string, args: seq<string>, sep: string)
    requires '(' !in name
    requires |args| >= 1 && forall i :: 0 <= i < |args| ==> PlainArg(args[i])
    requires sep == "," || sep == ", "
    ensures ParseCall(Call(name, args, sep)) == Some(CallForm(name, args))
  {
    CallParts(name, Join(args, sep));
    ArgumentsOfJoin(args, sep);
  }

  /** A line whose plain arguments are followed by one last text reads back
      as those arguments and the pieces of the text. */
  lemma CallThen(name: string, args: seq<string>, t: string)
    requires '(' !in name
    requires |args| >= 1 && forall i :: 0 <= i < |args| ==> PlainArg(args[i])
    ensures ParseCall(Call(name, args + [t], ", ")) == Some(CallForm(name, args + Arguments(" " + t)))
  {
    ArgumentsThen(args, t);
    CallParts(name, Join(args + [t], ", "));
  }

  /** A comma between two texts separates their arguments. */
  lemma ArgumentsAppend(a: string, b: string)
    ensures Arguments(a + "," + b) == Arguments(a) + Arguments(b)
  {
    SplitAppend(a, b, ',');
    var fs := Split(a + "," + b, ',');
    assert fs == Split(a, ',') + Split(b, ',');
    var l := Arguments(a);
    var r := Arguments(b);
    forall i | 0 <= i < |fs| ensures Arguments(a + "," + b)[i] == (l + r)[i] {
      if i < |l| {
        assert fs[i] == Split(a, ',')[i];
      } else {
        assert fs[i] == Split(b, ',')[i - |l|];
      }
    }
  }

  /** A plain text after ", " reads back as itself. */
  lemma ArgumentsOfPlain(t: string)
    requires PlainArg(t)
    ensures Arguments(" " + t) == [t]
  {
    var s := " " + t;
    assert ',' !in s by {
      forall k | 0 <= k < |s| ensures s[k] != ',' {
        if k > 0 {
          assert s[k] == t[k - 1];
          assert t[k - 1] in t;
        }
      }
    }
    SplitJoin([s], ',');
    assert Join([s], ",") == s;
    TrimSpaced(t);
  }

  /** Plain arguments followed by any last text, joined by ", ", read back as
      those arguments followed by whatever the emulator makes of the text:
      its comma-separated pieces, each without leading blanks. */
  lemma ArgumentsThen(args: seq<string>, t: string)
    requires |args| >= 1 && forall i :: 0 <= i < |args| ==> PlainArg(args[i])
    ensures Arguments(Join(args + [t], ", ")) == args + Arguments(" " + t)
  {
    var j := Join(args, ", ");
    var whole := Join(args + [t], ", ");
    JoinSnoc(args, t, ", ");
    assert whole == j + ", " + t;
    CommaBlank(j, t);
    ArgumentsAppend(j, " " + t);
    ArgumentsOfJoin(args, ", ");
    assert Arguments(whole) == Arguments(j) + Arguments(" " + t);
  }

  /** ", " between two texts is a comma followed by a blank-led second text. */
  lemma CommaBlank(a: string, b: string)
    ensures a + ", " + b == a + "," + (" " + b)
  {
    var l := a + ", " + b;
    var r := a + "," + (" " + b);
    assert |l| == |r|;
    forall k | 0 <= k < |l| ensures l[k] == r[k] {
      if k < |a| {
        assert l[k] == a[k] && r[k] == a[k];
      } else if k > |a| + 1 {
        assert l[k] == b[k - |a| - 2] && r[k] == b[k - |a| - 2];
      }
    }
  }

  /** Every character of an integer's text is a digit or the minus sign. */
  lemma IntArgPlain(i: int)
    ensures PlainArg(IntToString(i))
  {
    var s := IntToString(i);
    assert forall k :: 0 <= k < |s| ==> s[k] != ',';
  }

  /** A call with one integer argument reads back as that integer's text;
      with a single argument the separator plays no part. */
  lemma SingleIntCall(name: string, i: int)
    requires '(' !in name
    ensures ParseCall(Call(name, [IntToString(i)], "")) == Some(CallForm(name, [IntToString(i)]))
  {
    IntArgPlain(i);
    CallRoundTrip(name, [IntToString(i)], ",");
    assert Join([IntToString(i)], "") == Join([IntToString(i)], ",");
  }

  /** int() of the text of a number is that number. */
  lemma IntReadsBack(i: int)
    ensures ParseInt(IntToString(i)) == Some(i)
  {
    ParseIntToString(i);
  }

  // ---- the builders ----

  /** connect(): Connect(L:...) when TLS is enabled, Connect(B:...) otherwise,
      with lu@ in front of the host when an LU name is set. */
  function ConnectCommand(hostName: string, luName: Option<string>, enableTLS: Option<string>): (r: string)
    ensures |r| >= 11 && r[|r| - 1] == ')'
    ensures r[..10] == if enableTLS == Some("yes") then "Connect(L:" else "Connect(B:"
  {
    var mode := if enableTLS == Some("yes") then "L:" else "B:";
    var target := if luName.Some? && luName.value != "" then luName.value + "@" + hostName else hostName;
    assert Call("Connect", [mode + target], "") == "Connect" + "(" + (mode + target) + ")";
    Call("Connect", [mode + target], "")
  }

  /** The argument of sendPF/sendPA: an int, or any value that is not one. */
  datatype KeyArg = IntArg(n: int) | NotInt

  const MaxPF := 24
  const MaxPA := 3

  /** sendPF(n): PF(n) when n is an int in 1..24, nothing otherwise. */
  function PFCommand(n: KeyArg): (r: Option<string>)
    ensures r.Some? <==> n.IntArg? && 1 <= n.n <= MaxPF
    ensures r.Some? ==> ParseCall(r.value) == Some(CallForm("PF", [IntToString(n.n)]))
  {
    if n.IntArg? && 1 <= n.n <= MaxPF then
      SingleIntCall("PF", n.n);
      Some(Call("PF", [IntToString(n.n)], ""))
    else None
  }

  /** sendPA(n): PA(n) when n is an int in 1..3, nothing otherwise. */
  function PACommand(n: KeyArg): (r: Option<string>)
    ensures r.Some? <==> n.IntArg? && 1 <= n.n <= MaxPA
    ensures r.Some? ==> ParseCall(r.value) == Some(CallForm("PA", [IntToString(n.n)]))
  {
    if n.IntArg? && 1 <= n.n <= MaxPA then
      SingleIntCall("PA", n.n);
      Some(Call("PA", [IntToString(n.n)], ""))
    else None
  }

  /** moveTo(row, col): the 1-based position sent 0-based, not clamped. */
  function MoveToCommand(row: int, col: int): (r: string)
    ensures ParseCall(r) == Some(CallForm("MoveCursor", [IntToString(row - 1), IntToString(col - 1)]))
  {
    IntArgPlain(row - 1);
    IntArgPlain(col - 1);
    CallRoundTrip("MoveCursor", [IntToString(row - 1), IntToString(col - 1)], ", ");
    Call("MoveCursor", [IntToString(row - 1), IntToString(col - 1)], ", ")
  }

  /** sendKeys(keys): only the first key is sent; newline, tab and backspace
      become Enter, Tab and BackSpace. Nothing is sent for no keys. */
  function KeyCommand(keys: string): (r: Option<string>)
    ensures r.None? <==> |keys| == 0
    ensures r == Some("Enter") <==> |keys| > 0 && keys[0] == '\n'
    ensures r == Some("Tab") <==> |keys| > 0 && keys[0] == '\t'
    ensures r == Some("BackSpace") <==> |keys| > 0 && keys[0] == '\U{0008}'
  {
    if |keys| == 0 then None
    else if keys[0] == '\n' then Some("Enter")
    else if keys[0] == '\t' then Some("Tab")
    else if keys[0] == '\U{0008}' then Some("BackSpace")
    else Some(Call("Key", [[keys[0]]], ""))
  }

  /** sendText(text): the text inside double quotes, not escaped. */
  function TextCommand(text: string): (c: string)
    ensures |c| == |text| + 10 && c[..8] == "String(\"" && c[8..|c| - 2] == text && c[|c| - 2..] == "\")"
  {
    Call("String", ["\"" + text + "\""], "")
  }

  /** os.path.join(dir, name) on POSIX: an absolute name replaces the
      directory, otherwise a slash is put between them unless dir ends in one. */
  function PathJoin(dir: string, name: string): (r: string)
    ensures |name| <= |r| && r[|r| - |name|..] == name
    ensures (|name| == 0 || name[0] != '/') ==> |dir| <= |r| && r[..|dir|] == dir
    ensures |name| > 0 && name[0] == '/' ==> r == name
  {
    if |name| > 0 && name[0] == '/' then name
    else if |dir| == 0 || dir[|dir| - 1] == '/' then dir + name
    else dir + "/" + name
  }

  /** The file saveScreen writes: inside the screens directory when both the
      name and the directory are set. */
  function ScreenFile(fileName: string, screensDir: Option<string>): (r: string)
    ensures |fileName| <= |r| && r[|r| - |fileName|..] == fileName
    ensures fileName == "" ==> r == ""
  {
    if fileName != "" && screensDir.Some? && screensDir.value != "" then PathJoin(screensDir.value, fileName)
    else fileName
  }

  /** saveScreen(fileName, dataType): html and rtf are passed on, txt becomes
      file, any other type sends nothing. */
  function SaveScreenCommand(fileName: string, dataType: string, screensDir: Option<string>): (r: Option<string>)
    ensures r.Some? <==> dataType == "html" || dataType == "rtf" || dataType == "txt"
  {
    var f := ScreenFile(fileName, screensDir);
    if dataType == "html" || dataType == "rtf" then Some(Call("PrintText", [dataType, f], ", "))
    else if dataType == "txt" then Some(Call("PrintText", ["file", f], ", "))
    else None
  }

  /** saveScreen's default arguments. */
  const DefaultScreenFile := "screen"
  const DefaultScreenType := "html"

  /** saveScreen() with its defaults and no screens directory prints the
      screen as HTML to the file screen. */
  lemma SaveScreenDefaults()
    ensures SaveScreenCommand(DefaultScreenFile, DefaultScreenType, None) == Some("PrintText(html, screen)")
  {
    assert ScreenFile(DefaultScreenFile, None) == "screen";
    assert SaveScreenCommand(DefaultScreenFile, DefaultScreenType, None)
        == Some(Call("PrintText", ["html", "screen"], ", "));
    DefaultPrintText();
  }

  /** Helper for SaveScreenDefaults: the default PrintText line, spelled out. */
  lemma DefaultPrintText()
    ensures Call("PrintText", ["html", "screen"], ", ") == "PrintText(html, screen)"
  {
    var xs := ["html", "screen"];
    assert Join(xs[1..], ", ") == "screen" by { assert xs[1..] == ["screen"]; }
    assert Join(xs, ", ") == "html" + ", " + "screen";
    var c := "PrintText" + "(" + ("html" + ", " + "screen") + ")";
    assert |c| == 23;
    forall k | 0 <= k < 23 ensures c[k] == "PrintText(html, screen)"[k] {
    }
  }

  /** getScreen(): the screen as data lines. */
  const ScreenCommand := "PrintText(string)"

  /** readTextAtPosition(row, col, length): 0-based position, then the length. */
  function ReadTextCommand(row: int, col: int, length: int): (r: string)
    ensures ParseCall(r) == Some(CallForm("Ascii", [IntToString(row - 1), IntToString(col - 1), IntToString(length)]))
  {
    IntArgPlain(row - 1);
    IntArgPlain(col - 1);
    IntArgPlain(length);
    CallRoundTrip("Ascii", [IntToString(row - 1), IntToString(col - 1), IntToString(length)], ",");
    Call("Ascii", [IntToString(row - 1), IntToString(col - 1), IntToString(length)], ",")
  }

  /** readTextArea(row, col, rows, cols): 0-based position, then the size. */
  function ReadAreaCommand(row: int, col: int, rows: int, cols: int): (r: string)
    ensures ParseCall(r)
      == Some(CallForm("Ascii", [IntToString(row - 1), IntToString(col - 1), IntToString(rows), IntToString(cols)]))
  {
    var args := [IntToString(row - 1), IntToString(col - 1), IntToString(rows), IntToString(cols)];
    IntArgPlain(row - 1);
    IntArgPlain(col - 1);
    IntArgPlain(rows);
    IntArgPlain(cols);
    CallRoundTrip("Ascii", args, ",");
    Call("Ascii", args, ",")
  }

  /** What the wait* family waits for. Positions here are passed unchanged. */
  datatype WaitCondition =
    | Mode3270
    | CursorAt(row: int, col: int)
    | CursorAtOffset(offset: int)
    | Disconnect
    | InputField
    | InputFieldAt(row: int, col: int)
    | InputFieldAtOffset(offset: int)
    | NvtMode
    | Output
    | Seconds
    | StringAt(row: int, col: int, text: string)
    | StringAtOffset(offset: int, text: string)
    | Unlock

  /** The arguments after the timeout. */
  function ConditionArgs(w: WaitCondition): (r: seq<string>)
    ensures |r| >= 1
  {
    match w
    case Mode3270 => ["3270mode"]
    case CursorAt(row, col) => ["cursorAt", IntToString(row), IntToString(col)]
    case CursorAtOffset(offset) => ["cursorAt", IntToString(offset)]
    case Disconnect => ["disconnect"]
    case InputField => ["inputField"]
    case InputFieldAt(row, col) => ["inputFieldAt", IntToString(row), IntToString(col)]
    case InputFieldAtOffset(offset) => ["inputFieldAt", IntToString(offset)]
    case NvtMode => ["nvtmode"]
    case Output => ["output"]
    case Seconds => ["seconds"]
    case StringAt(row, col, text) => ["stringAt", IntToString(row), IntToString(col), text]
    case StringAtOffset(offset, text) => ["stringAt", IntToString(offset), text]
    case Unlock => ["unlock"]
  }

  /** Wait(timeout, condition...) */
  function WaitCommand(timeout: int, w: WaitCondition): (r: string)
    ensures ParseCall(r).Some? && ParseCall(r).value.name == "Wait"
  {
    CallParts("Wait", Join([IntToString(timeout)] + ConditionArgs(w), ", "));
    Call("Wait", [IntToString(timeout)] + ConditionArgs(w), ", ")
  }

  // ---- what the builders promise ----

  /** The number a PF or PA line carries reads back, through int(), as the
      key that was asked for. */
  lemma PFReadsBack(n: KeyArg)
    requires PFCommand(n).Some?
    ensures 1 <= n.n <= 24
    ensures ParseInt(ParseCall(PFCommand(n).value).value.args[0]) == Some(n.n)
  {
    IntReadsBack(n.n);
  }

  /** The same for PA keys in 1..3. */
  lemma PAReadsBack(n: KeyArg)
    requires PACommand(n).Some?
    ensures 1 <= n.n <= 3
    ensures ParseInt(ParseCall(PACommand(n).value).value.args[0]) == Some(n.n)
  {
    IntReadsBack(n.n);
  }

  /** Different keys give different lines. */
  lemma PFInjective(n: KeyArg, m: KeyArg)
    requires PFCommand(n).Some? && PFCommand(n) == PFCommand(m)
    ensures n == m
  {
    PFReadsBack(n);
    PFReadsBack(m);
    IntToStringInjective(n.n, m.n);
  }

  /** moveTo sends exactly row - 1 and col - 1, whatever their sign. */
  lemma MoveToReadsBack(row: int, col: int)
    ensures var c := ParseCall(MoveToCommand(row, col));
      && c.Some? && c.value.name == "MoveCursor" && |c.value.args| == 2
      && ParseInt(c.value.args[0]) == Some(row - 1)
      && ParseInt(c.value.args[1]) == Some(col - 1)
  {
    IntReadsBack(row - 1);
    IntReadsBack(col - 1);
  }

  /** Different positions give different lines. */
  lemma MoveToInjective(row: int, col: int, row2: int, col2: int)
    requires MoveToCommand(row, col) == MoveToCommand(row2, col2)
    ensures row == row2 && col == col2
  {
    MoveToReadsBack(row, col);
    MoveToReadsBack(row2, col2);
  }

  /** readTextAtPosition sends the 0-based position and the length. */
  lemma ReadTextReadsBack(row: int, col: int, length: int)
    ensures var c := ParseCall(ReadTextCommand(row, col, length));
      && c.Some? && c.value.name == "Ascii" && |c.value.args| == 3
      && ParseInt(c.value.args[0]) == Some(row - 1)
      && ParseInt(c.value.args[1]) == Some(col - 1)
      && ParseInt(c.value.args[2]) == Some(length)
  {
    IntReadsBack(row - 1);
    IntReadsBack(col - 1);
    IntReadsBack(length);
  }

  /** readTextArea sends the 0-based position and the size. */
  lemma ReadAreaReadsBack(row: int, col: int, rows: int, cols: int)
    ensures var c := ParseCall(ReadAreaCommand(row, col, rows, cols));
      && c.Some? && c.value.name == "Ascii" && |c.value.args| == 4
      && ParseInt(c.value.args[0]) == Some(row - 1)
      && ParseInt(c.value.args[1]) == Some(col - 1)
      && ParseInt(c.value.args[2]) == Some(rows)
      && ParseInt(c.value.args[3]) == Some(cols)
  {
    IntReadsBack(row - 1);
    IntReadsBack(col - 1);
    IntReadsBack(rows);
    IntReadsBack(cols);
  }

  /** Whether a condition ends in a text to wait for. */
  predicate WaitsForText(w: WaitCondition) {
    w.StringAt? || w.StringAtOffset?
  }

  /** The keyword and positions of a condition are plain; only a text to
      wait for, which comes last, may not be. */
  lemma ConditionPlain(w: WaitCondition)
    ensures var a := ConditionArgs(w);
      forall i :: 0 <= i < |a| && (i < |a| - 1 || !WaitsForText(w)) ==> PlainArg(a[i])
  {
    match w {
      case CursorAt(row, col) => IntArgPlain(row); IntArgPlain(col);
      case CursorAtOffset(offset) => IntArgPlain(offset);
      case InputFieldAt(row, col) => IntArgPlain(row); IntArgPlain(col);
      case InputFieldAtOffset(offset) => IntArgPlain(offset);
      case StringAt(row, col, _) => IntArgPlain(row); IntArgPlain(col);
      case StringAtOffset(offset, _) => IntArgPlain(offset);
      case _ =>
    }
  }

  /** A wait line carries the timeout first, then the condition's keyword
      and positions, all of which read back exactly. The text of stringAt
      comes last and unquoted, so the emulator reads it as its own
      comma-separated pieces without leading blanks: as itself exactly when
      it is plain. */
  lemma WaitReadsBack(timeout: int, w: WaitCondition)
    ensures var c := ParseCall(WaitCommand(timeout, w));
      var args := [IntToString(timeout)] + ConditionArgs(w);
      && c.Some? && ParseInt(c.value.args[0]) == Some(timeout)
      && (!WaitsForText(w) ==> c.value.args == args)
      && (WaitsForText(w) ==> c.value.args == args[..|args| - 1] + Arguments(" " + w.text))
      && (WaitsForText(w) && PlainArg(w.text) ==> c.value.args == args)
  {
    var args := [IntToString(timeout)] + ConditionArgs(w);
    IntArgPlain(timeout);
    ConditionPlain(w);
    if WaitsForText(w) {
      var fixed := args[..|args| - 1];
      assert args == fixed + [w.text];
      forall i | 0 <= i < |fixed| ensures PlainArg(fixed[i]) {
        if i > 0 {
          assert fixed[i] == ConditionArgs(w)[i - 1];
        }
      }
      CallThen("Wait", fixed, w.text);
      if PlainArg(w.text) {
        ArgumentsOfPlain(w.text);
      }
    } else {
      forall i | 0 <= i < |args| ensures PlainArg(args[i]) {
        if i > 0 {
          assert args[i] == ConditionArgs(w)[i - 1];
        }
      }
      CallRoundTrip("Wait", args, ", ");
    }
    IntReadsBack(timeout);
  }

  /** Only the first key counts: what follows it is never sent. */
  lemma KeyFirstOnly(k: char, rest: string)
    ensures KeyCommand([k] + rest) == KeyCommand([k])
  {
  }

  /** A key other than the three special ones is sent as Key(key), whatever
      it is; the emulator reads the key back as itself unless it is a comma
      (read as two empty arguments) or a blank (trimmed to nothing). */
  lemma KeyReadsBack(keys: string)
    requires |keys| > 0 && keys[0] !in "\n\t\U{0008}"
    ensures KeyCommand(keys) == Some("Key(" + [keys[0]] + ")")
    ensures ParseCall(KeyCommand(keys).value) == Some(CallForm("Key", Arguments([keys[0]])))
    ensures keys[0] != ',' && keys[0] != ' ' ==> Arguments([keys[0]]) == [[keys[0]]]
    ensures keys[0] == ',' ==> Arguments([keys[0]]) == ["", ""]
    ensures keys[0] == ' ' ==> Arguments([keys[0]]) == [""]
  {
    var k := [keys[0]];
    assert Join([k], "") == k;
    assert "Key(" == "Key" + "(";
    assert KeyCommand(keys).value == "Key" + "(" + k + ")";
    CallParts("Key", k);
    assert k[1..] == "";
    if keys[0] == ',' {
      assert Split(k, ',') == [""] + Split("", ',');
    } else {
      assert Split("", ',') == [""];
      assert Split(k, ',') == [[keys[0]] + ""] + [];
      assert [keys[0]] + "" == k;
    }
  }

  /** saveScreen sends the type (file for txt) and then the file it was
      asked to write, unquoted and last: the emulator reads the file name
      as its comma-separated pieces without leading blanks, which is the
      name itself exactly when it is plain. */
  lemma SaveScreenTypes(fileName: string, dataType: string, screensDir: Option<string>)
    requires SaveScreenCommand(fileName, dataType, screensDir).Some?
    ensures var t := if dataType == "txt" then "file" else dataType;
      var f := ScreenFile(fileName, screensDir);
      && ParseCall(SaveScreenCommand(fileName, dataType, screensDir).value)
           == Some(CallForm("PrintText", [t] + Arguments(" " + f)))
      && (PlainArg(f) ==> Arguments(" " + f) == [f])
  {
    var f := ScreenFile(fileName, screensDir);
    var t := if dataType == "txt" then "file" else dataType;
    assert [t, f] == [t] + [f];
    assert SaveScreenCommand(fileName, dataType, screensDir) == Some(Call("PrintText", [t] + [f], ", "));
    PrintTextReadsBack(t, f);
  }

  lemma PrintTextReadsBack(t: string, f: string)
    requires t == "html" || t == "rtf" || t == "file"
    ensures ParseCall(Call("PrintText", [t] + [f], ", ")) == Some(CallForm("PrintText", [t] + Arguments(" " + f)))
    ensures PlainArg(f) ==> Arguments(" " + f) == [f]
  {
    assert ',' !in t && t[0] != ' ';
    CallThen("PrintText", [t], f);
    if PlainArg(f) {
      ArgumentsOfPlain(f);
    }
  }

  /** A relative file name goes into the screens directory, separated by one slash. */
  lemma ScreenFileInDirectory(fileName: string, dir: string)
    requires fileName != "" && fileName[0] != '/'
    requires dir != "" && dir[|dir| - 1] != '/'
    ensures ScreenFile(fileName, Some(dir)) == dir + "/" + fileName
  {
  }

  /** The connect line names the host, behind lu@ when an LU name is set,
      and uses L: exactly when TLS is enabled. */
  lemma ConnectReadsBack(hostName: string, luName: Option<string>, enableTLS: Option<string>)
    requires ',' !in hostName && (luName.Some? ==> ',' !in luName.value)
    ensures var mode := if enableTLS == Some("yes") then "L:" else "B:";
      var target := if luName.Some? && luName.value != "" then luName.value + "@" + hostName else hostName;
      ParseCall(ConnectCommand(hostName, luName, enableTLS)) == Some(CallForm("Connect", [mode + target]))
  {
    var mode := if enableTLS == Some("yes") then "L:" else "B:";
    var target := if luName.Some? && luName.value != "" then luName.value + "@" + hostName else hostName;
    var arg := mode + target;
    assert forall k :: 0 <= k < |arg| ==> arg[k] != ',' by {
      forall k | 0 <= k < |arg| ensures arg[k] != ',' {
        if k >= 2 {
          assert arg[k] == target[k - 2];
          if luName.Some? && luName.value != "" {
            var lu := luName.value;
            assert target == lu + ("@" + hostName);
            if k - 2 < |lu| {
              assert target[k - 2] == lu[k - 2];
              assert lu[k - 2] in lu;
            } else if k - 2 > |lu| {
              assert target[k - 2] == hostName[k - 3 - |lu|];
              assert hostName[k - 3 - |lu|] in hostName;
            }
          } else {
            assert target[k - 2] in hostName;
          }
        }
      }
    }
    assert PlainArg(arg);
    CallRoundTrip("Connect", [arg], ",");
    assert Join([arg], "") == Join([arg], ",");
  }

  // ---- the lines the tests expect ----

  /** PF(7) and PA(3) are sent; 37, -3 and non-integers are refused, as are
      PA keys past 3. */
  lemma KeyExamples()
    ensures PFCommand(IntArg(7)) == Some("PF(7)")
    ensures PACommand(IntArg(3)) == Some("PA(3)")
    ensures PFCommand(IntArg(37)) == None && PFCommand(IntArg(-3)) == None && PFCommand(NotInt) == None
    ensures PACommand(IntArg(5)) == None && PACommand(IntArg(-3)) == None && PACommand(NotInt) == None
  {
    assert IntToString(7) == "7" && Join(["7"], "") == "7";
    assert IntToString(3) == "3" && Join(["3"], "") == "3";
    assert "PF" + "(" + "7" + ")" == "PF(7)";
    assert "PA" + "(" + "3" + ")" == "PA(3)";
  }

  /** The moveTo line written out: 'MoveCursor({}, {})' with the 0-based position. */
  lemma MoveToLine(row: int, col: int)
    ensures MoveToCommand(row, col) == "MoveCursor(" + IntToString(row - 1) + ", " + IntToString(col - 1) + ")"
  {
    var r := IntToString(row - 1);
    var c := IntToString(col - 1);
    JoinCons(r, [c], ", ");
    assert "MoveCursor(" == "MoveCursor" + "(";
  }

  /** moveTo(5, 20) and moveTo(-10, -10). */
  lemma MoveToExamples()
    ensures MoveToCommand(5, 20) == "MoveCursor(4, 19)"
    ensures MoveToCommand(-10, -10) == "MoveCursor(-11, -11)"
  {
    MoveToNumbers();
    MoveToLine(5, 20);
    MoveToLine(-10, -10);
    MoveToTexts("4", "19", "-11");
  }

  /** Helper for MoveToExamples: the numbers of the two sample lines. */
  lemma MoveToNumbers()
    ensures IntToString(4) == "4" && IntToString(19) == "19" && IntToString(-11) == "-11"
  {
    assert NatToString(19) == NatToString(1) + [DigitChar(9)];
    assert NatToString(11) == NatToString(1) + [DigitChar(1)];
  }

  /** Helper for MoveToExamples: the two sample lines spelled out. */
  lemma MoveToTexts(a: string, b: string, c: string)
    requires a == "4" && b == "19" && c == "-11"
    ensures "MoveCursor(" + a + ", " + b + ")" == "MoveCursor(4, 19)"
    ensures "MoveCursor(" + c + ", " + c + ")" == "MoveCursor(-11, -11)"
  {
  }

  /** The connect lines of the two sample configurations, which both name
      LU01QSWJ at localhost. */
  lemma ConnectExamples(lu: string)
    requires lu == "LU01QSWJ"
    ensures ConnectCommand("localhost", Some(lu), Some("no")) == "Connect(B:LU01QSWJ@localhost)"
    ensures ConnectCommand("localhost", Some(lu), Some("yes")) == "Connect(L:LU01QSWJ@localhost)"
  {
  }

  /** sendText and saveScreen as the tests call them. */
  lemma TextAndScreenExamples(dir: string)
    requires dir != "" && dir[|dir| - 1] != '/'
    ensures TextCommand("CEMT I TASK") == "String(\"CEMT I TASK\")"
    ensures SaveScreenCommand("myscreen.html", "html", Some(dir)) == Some("PrintText(" + "html" + ", " + dir + "/" + "myscreen.html" + ")")
    ensures SaveScreenCommand("myscreen.rtf", "rtf", Some(dir)) == Some("PrintText(" + "rtf" + ", " + dir + "/" + "myscreen.rtf" + ")")
    ensures SaveScreenCommand("myscreen.pdf", "pdf", Some(dir)) == None
  {
    ScreenExample(dir, "html", "myscreen.html");
    ScreenExample(dir, "rtf", "myscreen.rtf");
  }

  lemma ScreenExample(dir: string, t: string, name: string)
    requires dir != "" && dir[|dir| - 1] != '/'
    requires t == "html" || t == "rtf"
    requires name != "" && name[0] != '/'
    ensures SaveScreenCommand(name, t, Some(dir)) == Some("PrintText(" + t + ", " + dir + "/" + name + ")")
  {
    var f := dir + "/" + name;
    assert ScreenFile(name, Some(dir)) == f;
    assert Join([t, f], ", ") == t + ", " + f by {
      assert [t, f][1..] == [f];
    }
    assert SaveScreenCommand(name, t, Some(dir)) == Some(Call("PrintText", [t, f], ", "));
    assert "PrintText" + "(" + (t + ", " + f) + ")" == "PrintText(" + t + ", " + dir + "/" + name + ")";
  }
}
