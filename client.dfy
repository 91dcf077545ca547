/** The 3270 client (p3270/p3270.py, class P3270Client): a validated
    configuration, the argument list of the emulator process, and one
    operation per s3270 action, each of which writes the line its builder
    makes and reads the response. */
module Client {
  import opened Wrappers
  import opened Text
  import opened Status
  import opened Channel
  import opened Configuration
  import opened Commands

  /** The executable: s3270, behind path when one is given. */
  function Executable(path: Option<string>): string
  {
    if path.Some? then path.value + "s3270" else "s3270"
  }

  /** The executable's name always ends in s3270, and a given path is kept
      whole in front of it. */
  lemma ExecutablePath(path: Option<string>)
    ensures var e := Executable(path);
      && |e| >= 5 && e[|e| - 5..] == "s3270"
      && (path.None? ==> |e| == 5)
      && (path.Some? ==> |e| == |path.value| + 5 && e[..|path.value|] == path.value)
  {
  }

  /** The argument list makeArgs builds: only the executable unless the
      configuration is valid; then the model and port, the charset when a
      code page is set, tracing when a trace file is set, and
      -noverifycert when verifyCert is "no". */
  function ArgList(exe: string, valid: bool, modelName: string, hostPort: string, codePage: Option<string>,
                   traceFile: Option<string>, verifyCert: Option<string>): (args: seq<string>)
    ensures |args| >= 1 && args[0] == exe
    ensures !valid ==> args == [exe]
  {
    if !valid then [exe]
    else
      [exe, "-model", modelName, "-port", hostPort]
      + (if Truthy(codePage) then ["-charset", codePage.value] else [])
      + (if Truthy(traceFile) then ["-trace", "-tracefile", traceFile.value] else [])
      + (if verifyCert == Some("no") then ["-noverifycert"] else [])
  }

  /** makeArgs(): the list built by appending, in the order of the source. */
  method MakeArgs(path: Option<string>, conf: Config) returns (args: seq<string>)
    ensures args == ArgList(Executable(path), conf.IsValid(), conf.modelName, conf.hostPort, conf.codePage,
                            conf.traceFile, conf.verifyCert)
  {
    args := ["s3270"];
    if path.Some? {
      args := [path.value + "s3270"];
    }
    if conf.IsValid() {
      args := args + ["-model"];
      args := args + [conf.modelName];
      args := args + ["-port"];
      args := args + [conf.hostPort];
      if Truthy(conf.codePage) {
        args := args + ["-charset"];
        args := args + [conf.codePage.value];
      }
      if Truthy(conf.traceFile) {
        args := args + ["-trace"];
        args := args + ["-tracefile"];
        args := args + [conf.traceFile.value];
      }
      if conf.verifyCert == Some("no") {
        args := args + ["-noverifycert"];
      }
    }
  }

  /** "-noverifycert" is passed exactly when the configuration is valid and
      verifyCert is "no", provided the trace file is not itself called so:
      no valid model, port or code page can be. */
  lemma NoVerifyCertFlag(exe: string, valid: bool, modelName: string, hostPort: string, codePage: Option<string>,
                         traceFile: Option<string>, verifyCert: Option<string>)
    requires exe != "-noverifycert" && (traceFile.Some? ==> traceFile.value != "-noverifycert")
    requires valid ==> modelName in ValidModels && ParseInt(hostPort).Some?
    requires valid && Truthy(codePage) ==> KnownCodePage(codePage.value)
    ensures "-noverifycert" in ArgList(exe, valid, modelName, hostPort, codePage, traceFile, verifyCert)
      <==> valid && verifyCert == Some("no")
  {
    var flag := "-noverifycert";
    if valid {
      assert flag != modelName;
      assert !IsDecimal(flag[1..]) by { assert !IsDigit(flag[1]); }
      assert !IsDecimal(flag) by { assert !IsDigit(flag[0]); }
      assert flag != hostPort;
      if Truthy(codePage) {
        assert flag != codePage.value;
      }
    }
  }

  /** With a valid configuration the argument list has its fixed shape:
      executable, -model and the model, -port and the port, each optional
      part adding its flags and values after them. */
  lemma ArgListShape(exe: string, modelName: string, hostPort: string, codePage: Option<string>,
                     traceFile: Option<string>, verifyCert: Option<string>)
    ensures var args := ArgList(exe, true, modelName, hostPort, codePage, traceFile, verifyCert);
      var cs := if Truthy(codePage) then 2 else 0;
      var ts := if Truthy(traceFile) then 3 else 0;
      && |args| == 5 + cs + ts + (if verifyCert == Some("no") then 1 else 0)
      && args[..5] == [exe, "-model", modelName, "-port", hostPort]
      && (Truthy(codePage) ==> args[5..7] == ["-charset", codePage.value])
      && (Truthy(traceFile) ==> args[5 + cs..8 + cs] == ["-trace", "-tracefile", traceFile.value])
  {
  }

  /** What readTextArea returns: the lines of the buffer when more than one
      row was read, otherwise the buffer itself. */
  datatype AreaText = AreaLines(lines: seq<string>) | AreaBuffer(text: Option<string>)

  /** A client connected to an emulator process whose output is lines. */
  class P3270Client {
    const conf: Config
    const s3270: S3270
    const path: Option<string>
    const timeout: int
    const args: seq<string>

    constructor (conf: Config, s3270: S3270, path: Option<string>, timeout: int, args: seq<string>)
      ensures this.conf == conf && this.s3270 == s3270 && this.path == path
      ensures this.timeout == timeout && this.args == args
    {
      this.conf := conf;
      this.s3270 := s3270;
      this.path := path;
      this.timeout := timeout;
      this.args := args;
    }

    /** connect() */
    method Connect() returns (ok: bool)
      modifies s3270, s3270.subpro
      ensures s3270.Performed(ConnectCommand(conf.hostName, conf.luName, conf.enableTLS), ok)
    {
      ok := s3270.Do(ConnectCommand(conf.hostName, conf.luName, conf.enableTLS));
    }

    /** disconnect() */
    method Disconnect() returns (ok: bool)
      modifies s3270, s3270.subpro
      ensures s3270.Performed("Disconnect", ok)
    {
      ok := s3270.Do("Disconnect");
    }

    /** endSession(): Quit, after which nothing is read and the answer is success. */
    method EndSession() returns (ok: bool)
      modifies s3270, s3270.subpro
      ensures s3270.Performed("Quit", ok) && ok
    {
      ok := s3270.Do("Quit");
    }

    /** sendEnter() */
    method SendEnter() returns (ok: bool)
      modifies s3270, s3270.subpro
      ensures s3270.Performed("Enter", ok)
    {
      ok := s3270.Do("Enter");
    }

    /** sendPF(n): the key is sent when n is an int in 1..24; otherwise the
        answer is failure and nothing is written or read. */
    method SendPF(n: KeyArg) returns (ok: bool)
      modifies s3270, s3270.subpro
      ensures PFCommand(n).Some? ==> s3270.Performed(PFCommand(n).value, ok)
      ensures PFCommand(n).None? ==> !ok && unchanged(s3270, s3270.subpro)
    {
      var c := PFCommand(n);
      if c.Some? {
        ok := s3270.Do(c.value);
      } else {
        ok := false;
      }
    }

    /** sendPA(n): the same for PA keys in 1..3. */
    method SendPA(n: KeyArg) returns (ok: bool)
      modifies s3270, s3270.subpro
      ensures PACommand(n).Some? ==> s3270.Performed(PACommand(n).value, ok)
      ensures PACommand(n).None? ==> !ok && unchanged(s3270, s3270.subpro)
    {
      var c := PACommand(n);
      if c.Some? {
        ok := s3270.Do(c.value);
      } else {
        ok := false;
      }
    }

    /** sendBackSpace() */
    method SendBackSpace() returns (ok: bool)
      modifies s3270, s3270.subpro
      ensures s3270.Performed("BackSpace", ok)
    {
      ok := s3270.Do("BackSpace");
    }

    /** sendBackTab() */
    method SendBackTab() returns (ok: bool)
      modifies s3270, s3270.subpro
      ensures s3270.Performed("BackTab", ok)
    {
      ok := s3270.Do("BackTab");
    }

    /** sendHome() */
    method SendHome() returns (ok: bool)
      modifies s3270, s3270.subpro
      ensures s3270.Performed("Home", ok)
    {
      ok := s3270.Do("Home");
    }

    /** sendTab() */
    method SendTab() returns (ok: bool)
      modifies s3270, s3270.subpro
      ensures s3270.Performed("Tab", ok)
    {
      ok := s3270.Do("Tab");
    }

    /** sendKeys(keys): the first key only, through sendEnter, sendTab or
        sendBackSpace for the three special ones; None, with nothing
        written, when there are no keys. */
    method SendKeys(keys: string) returns (ok: Option<bool>)
      modifies s3270, s3270.subpro
      ensures KeyCommand(keys).None? ==> ok == None && unchanged(s3270, s3270.subpro)
      ensures KeyCommand(keys).Some? ==> ok.Some? && s3270.Performed(KeyCommand(keys).value, ok.value)
    {
      if |keys| == 0 {
        return None;
      }
      var key := keys[0];
      var b: bool;
      if key == '\n' {
        b := SendEnter();
      } else if key == '\t' {
        b := SendTab();
      } else if key == '\U{0008}' {
        b := SendBackSpace();
      } else {
        b := s3270.Do(Call("Key", [[key]], ""));
      }
      ok := Some(b);
    }

    /** clearScreen() */
    method ClearScreen() returns (ok: bool)
      modifies s3270, s3270.subpro
      ensures s3270.Performed("Clear", ok)
    {
      ok := s3270.Do("Clear");
    }

    /** delChar() */
    method DelChar() returns (ok: bool)
      modifies s3270, s3270.subpro
      ensures s3270.Performed("Delete", ok)
    {
      ok := s3270.Do("Delete");
    }

    /** delField() */
    method DelField() returns (ok: bool)
      modifies s3270, s3270.subpro
      ensures s3270.Performed("DeleteField", ok)
    {
      ok := s3270.Do("DeleteField");
    }

    /** delWord() */
    method DelWord() returns (ok: bool)
      modifies s3270, s3270.subpro
      ensures s3270.Performed("DeleteWord", ok)
    {
      ok := s3270.Do("DeleteWord");
    }

    /** eraseChar() */
    method EraseChar() returns (ok: bool)
      modifies s3270, s3270.subpro
      ensures s3270.Performed("Erase", ok)
    {
      ok := s3270.Do("Erase");
    }

    /** moveCursorDown() */
    method MoveCursorDown() returns (ok: bool)
      modifies s3270, s3270.subpro
      ensures s3270.Performed("Down", ok)
    {
      ok := s3270.Do("Down");
    }

    /** moveCursorUp() */
    method MoveCursorUp() returns (ok: bool)
      modifies s3270, s3270.subpro
      ensures s3270.Performed("Up", ok)
    {
      ok := s3270.Do("Up");
    }

    /** moveCursorLeft() */
    method MoveCursorLeft() returns (ok: bool)
      modifies s3270, s3270.subpro
      ensures s3270.Performed("Left", ok)
    {
      ok := s3270.Do("Left");
    }

    /** moveCursorRight() */
    method MoveCursorRight() returns (ok: bool)
      modifies s3270, s3270.subpro
      ensures s3270.Performed("Right", ok)
    {
      ok := s3270.Do("Right");
    }

    /** moveTo(row, col) */
    method MoveTo(row: int, col: int) returns (ok: bool)
      modifies s3270, s3270.subpro
      ensures s3270.Performed(MoveToCommand(row, col), ok)
    {
      ok := s3270.Do(MoveToCommand(row, col));
    }

    /** moveToFirstInputField(): the same action as sendHome. */
    method MoveToFirstInputField() returns (ok: bool)
      modifies s3270, s3270.subpro
      ensures s3270.Performed("Home", ok)
    {
      ok := s3270.Do("Home");
    }

    /** sendText(text) */
    method SendText(text: string) returns (ok: bool)
      modifies s3270, s3270.subpro
      ensures s3270.Performed(TextCommand(text), ok)
    {
      ok := s3270.Do(TextCommand(text));
    }

    /** saveScreen(fileName, dataType): failure, with nothing written, for a
        type other than html, rtf and txt. */
    method SaveScreen(fileName: string, dataType: string) returns (ok: bool)
      modifies s3270, s3270.subpro
      ensures var c := SaveScreenCommand(fileName, dataType, conf.screensDir);
        && (c.Some? ==> s3270.Performed(c.value, ok))
        && (c.None? ==> !ok && unchanged(s3270, s3270.subpro))
    {
      var c := SaveScreenCommand(fileName, dataType, conf.screensDir);
      if c.Some? {
        ok := s3270.Do(c.value);
      } else {
        ok := false;
      }
    }

    /** saveScreen() with its default arguments. */
    method SaveDefaultScreen() returns (ok: bool)
      modifies s3270, s3270.subpro
      ensures s3270.Performed(SaveScreenCommand(DefaultScreenFile, DefaultScreenType, conf.screensDir).value, ok)
    {
      ok := SaveScreen(DefaultScreenFile, DefaultScreenType);
    }

    /** getScreen(): the buffer after PrintText(string), whatever the answer. */
    method GetScreen() returns (screen: Option<string>)
      modifies s3270, s3270.subpro
      ensures s3270.Sent(ScreenCommand) && screen == s3270.buffer
    {
      var _ := s3270.Do(ScreenCommand);
      screen := s3270.buffer;
    }

    /** isConnected(): the connection state of the status line NoOpCommand
        brings back, None when that line is not a valid status. */
    method IsConnected() returns (state: Option<bool>)
      modifies s3270, s3270.subpro
      ensures s3270.Sent("NoOpCommand")
      ensures state == Parse(Respond(s3270.subpro.lines, old(s3270.subpro.cursor), old(s3270.buffer)).status).ConnectionState()
    {
      var _ := s3270.Do("NoOpCommand");
      state := s3270.statusMsg.value.ConnectionState();
    }

    /** readTextAtPosition(row, col, length): the buffer after the Ascii action. */
    method ReadTextAtPosition(row: int, col: int, length: int) returns (text: Option<string>)
      modifies s3270, s3270.subpro
      ensures s3270.Sent(ReadTextCommand(row, col, length)) && text == s3270.buffer
    {
      var _ := s3270.Do(ReadTextCommand(row, col, length));
      text := s3270.buffer;
    }

    /** readTextArea(row, col, rows, cols): an exception, before anything is
        written, unless all four are at least 1; with more than one row the
        buffer's lines, which fails when there is no buffer at all. */
    method ReadTextArea(row: int, col: int, rows: int, cols: int) returns (r: Result<AreaText>)
      modifies s3270, s3270.subpro
      ensures row < 1 || col < 1 || rows < 1 || cols < 1 ==>
        r == Err("Exception") && unchanged(s3270, s3270.subpro)
      ensures row >= 1 && col >= 1 && rows >= 1 && cols >= 1 ==>
        && s3270.Sent(ReadAreaCommand(row, col, rows, cols))
        && r == if rows == 1 then Ok(AreaBuffer(s3270.buffer))
                else if s3270.buffer.None? then Err("AttributeError")
                else Ok(AreaLines(SplitLines(s3270.buffer.value)))
    {
      if row < 1 || col < 1 || rows < 1 || cols < 1 {
        return Err("Exception");
      }
      var _ := s3270.Do(ReadAreaCommand(row, col, rows, cols));
      var result := s3270.buffer;
      if rows > 1 {
        if result.None? {
          return Err("AttributeError");
        }
        return Ok(AreaLines(SplitLines(result.value)));
      }
      r := Ok(AreaBuffer(result));
    }

    /** foundTextAtPosition(row, col, text): whether reading len(text)
        characters there gives back text. */
    method FoundTextAtPosition(row: int, col: int, sentText: string) returns (found: bool)
      modifies s3270, s3270.subpro
      ensures s3270.Sent(ReadTextCommand(row, col, |sentText|))
      ensures found <==> s3270.buffer == Some(sentText)
    {
      var readText := ReadTextAtPosition(row, col, |sentText|);
      found := readText == Some(sentText);
    }

    /** The first half of trySendTextToField: move to the field and delete it. */
    method ClearFieldAt(row: int, col: int)
      modifies s3270, s3270.subpro
      ensures s3270.subpro.lines == old(s3270.subpro.lines)
      ensures s3270.subpro.written == old(s3270.subpro.written) + [MoveToCommand(row, col) + "\n", "DeleteField" + "\n"]
    {
      ghost var w0 := s3270.subpro.written;
      var _ := MoveTo(row, col);
      ghost var w1 := s3270.subpro.written;
      assert w1 == w0 + [MoveToCommand(row, col) + "\n"];
      var _ := DelField();
      assert s3270.subpro.written == w1 + ["DeleteField" + "\n"];
    }

    /** trySendTextToField(text, row, col): move there, delete the field,
        type the text and read it back; whether it reads back unchanged. */
    method TrySendTextToField(text: string, row: int, col: int) returns (ok: bool)
      modifies s3270, s3270.subpro
      ensures s3270.subpro.lines == old(s3270.subpro.lines)
      ensures s3270.subpro.written == old(s3270.subpro.written)
        + [MoveToCommand(row, col) + "\n", "DeleteField" + "\n", TextCommand(text) + "\n",
           ReadTextCommand(row, col, |text|) + "\n"]
      ensures s3270.cmd == Some(ReadTextCommand(row, col, |text|) + "\n")
      ensures ok <==> s3270.buffer == Some(text)
    {
      ghost var w0 := s3270.subpro.written;
      ghost var move, text', read := MoveToCommand(row, col) + "\n", TextCommand(text) + "\n",
        ReadTextCommand(row, col, |text|) + "\n";
      ClearFieldAt(row, col);
      ghost var w2 := s3270.subpro.written;
      assert w2 == w0 + [move, "DeleteField" + "\n"];
      var _ := SendText(text);
      ghost var w3 := s3270.subpro.written;
      assert w3 == w2 + [text'];
      var result := ReadTextAtPosition(row, col, |text|);
      assert s3270.subpro.written == w3 + [read];
      assert w0 + [move, "DeleteField" + "\n"] + [text'] + [read] == w0 + [move, "DeleteField" + "\n", text', read];
      ok := Some(text) == result;
    }

    /** The wait* family: one Wait action with the client's timeout. */
    method WaitFor(w: WaitCondition) returns (ok: bool)
      modifies s3270, s3270.subpro
      ensures s3270.Performed(WaitCommand(timeout, w), ok)
    {
      ok := s3270.Do(WaitCommand(timeout, w));
    }

    /** waitFor3270Mode() */
    method WaitFor3270Mode() returns (ok: bool)
      modifies s3270, s3270.subpro
      ensures s3270.Performed(WaitCommand(timeout, Mode3270), ok)
    {
      ok := WaitFor(Mode3270);
    }

    /** waitForCursorAt(row, col): the position is passed as given. */
    method WaitForCursorAt(row: int, col: int) returns (ok: bool)
      modifies s3270, s3270.subpro
      ensures s3270.Performed(WaitCommand(timeout, CursorAt(row, col)), ok)
    {
      ok := WaitFor(CursorAt(row, col));
    }

    /** waitForCursorAtOffset(offset) */
    method WaitForCursorAtOffset(offset: int) returns (ok: bool)
      modifies s3270, s3270.subpro
      ensures s3270.Performed(WaitCommand(timeout, CursorAtOffset(offset)), ok)
    {
      ok := WaitFor(CursorAtOffset(offset));
    }

    /** waitForDisconnect() */
    method WaitForDisconnect() returns (ok: bool)
      modifies s3270, s3270.subpro
      ensures s3270.Performed(WaitCommand(timeout, WaitCondition.Disconnect), ok)
    {
      ok := WaitFor(WaitCondition.Disconnect);
    }

    /** waitForField() */
    method WaitForField() returns (ok: bool)
      modifies s3270, s3270.subpro
      ensures s3270.Performed(WaitCommand(timeout, InputField), ok)
    {
      ok := WaitFor(InputField);
    }

    /** waitForFieldAt(row, col) */
    method WaitForFieldAt(row: int, col: int) returns (ok: bool)
      modifies s3270, s3270.subpro
      ensures s3270.Performed(WaitCommand(timeout, InputFieldAt(row, col)), ok)
    {
      ok := WaitFor(InputFieldAt(row, col));
    }

    /** waitForFieldAtOffset(offset) */
    method WaitForFieldAtOffset(offset: int) returns (ok: bool)
      modifies s3270, s3270.subpro
      ensures s3270.Performed(WaitCommand(timeout, InputFieldAtOffset(offset)), ok)
    {
      ok := WaitFor(InputFieldAtOffset(offset));
    }

    /** waitForNVTMode() */
    method WaitForNVTMode() returns (ok: bool)
      modifies s3270, s3270.subpro
      ensures s3270.Performed(WaitCommand(timeout, NvtMode), ok)
    {
      ok := WaitFor(NvtMode);
    }

    /** waitForOutput() */
    method WaitForOutput() returns (ok: bool)
      modifies s3270, s3270.subpro
      ensures s3270.Performed(WaitCommand(timeout, Output), ok)
    {
      ok := WaitFor(Output);
    }

    /** waitForTimeout() */
    method WaitForTimeout() returns (ok: bool)
      modifies s3270, s3270.subpro
      ensures s3270.Performed(WaitCommand(timeout, Seconds), ok)
    {
      ok := WaitFor(Seconds);
    }

    /** waitForStringAt(row, col, text): the text is passed unquoted. */
    method WaitForStringAt(row: int, col: int, text: string) returns (ok: bool)
      modifies s3270, s3270.subpro
      ensures s3270.Performed(WaitCommand(timeout, StringAt(row, col, text)), ok)
    {
      ok := WaitFor(StringAt(row, col, text));
    }

    /** waitForStringAtOffset(offset, text) */
    method WaitForStringAtOffset(offset: int, text: string) returns (ok: bool)
      modifies s3270, s3270.subpro
      ensures s3270.Performed(WaitCommand(timeout, StringAtOffset(offset, text)), ok)
    {
      ok := WaitFor(StringAtOffset(offset, text));
    }

    /** waitForUnlock() */
    method WaitForUnlock() returns (ok: bool)
      modifies s3270, s3270.subpro
      ensures s3270.Performed(WaitCommand(timeout, Unlock), ok)
    {
      ok := WaitFor(Unlock);
    }
  }

  /** The steps P3270Client(...) takes once it has the configuration's
      attributes: Config(...), isValid(), makeArgs() and S3270(args,
      encoding). A non-numeric port raises ValueError, an invalid
      configuration InvalidConfiguration, and a configuration without an
      encoding (no code page) AttributeError. The emulator process is the
      line source lines; dirExists is what os.path.isdir says of the screens
      directory. */
  method Open(a: Attributes, path: Option<string>, timeoutInSec: int, dirExists: bool, lines: seq<string>)
    returns (r: Result<P3270Client>)
    ensures ParseInt(a.hostPort).None? ==> r == Err("ValueError")
    ensures ParseInt(a.hostPort).Some? ==>
      var bad := FailureNames(a, ParseInt(a.hostPort).value, dirExists);
      && (bad != [] ==> r == Err("InvalidConfiguration"))
      && (bad == [] && !Truthy(a.codePage) ==> r == Err("AttributeError"))
      && (bad == [] && Truthy(a.codePage) ==> r.Ok?)
    ensures r.Ok? ==>
      && ParseInt(a.hostPort).Some? && FailureNames(a, ParseInt(a.hostPort).value, dirExists) == []
      && Truthy(a.codePage)
    ensures r.Ok? ==>
      && fresh(r.value) && fresh(r.value.conf) && fresh(r.value.s3270) && fresh(r.value.s3270.subpro)
      && r.value.conf.Attrs() == a && r.value.conf.IsValid()
      && r.value.args == ArgList(Executable(path), true, a.modelName, a.hostPort, a.codePage, a.traceFile, a.verifyCert)
      && r.value.s3270.args == r.value.args
      && r.value.s3270.encoding == EncodingFor(a.codePage.value)
      && r.value.timeout == timeoutInSec && r.value.path == path
      && r.value.s3270.subpro.lines == lines && r.value.s3270.subpro.cursor == 0
      && r.value.s3270.subpro.written == []
      && r.value.s3270.buffer == None && r.value.s3270.statusMsg == None
  {
    var c := NewConfig(a, dirExists);
    if c.Err? {
      return Err(c.error);
    }
    var conf := c.value;
    if !conf.IsValid() {
      return Err("InvalidConfiguration");
    }
    var args := MakeArgs(path, conf);
    if conf.encoding.None? {
      return Err("AttributeError");
    }
    var pipe := new Pipe(lines);
    var s := new S3270(args, conf.encoding.value, pipe);
    var client := new P3270Client(conf, s, path, timeoutInSec, args);
    r := Ok(client);
  }

  /** P3270Client(...) without a configuration file, as written: the
      configuration gets the host, port, LU name, model, code page and
      screens directory, while its verifyCert and enableTLS keep their
      defaults whatever was passed here, and no trace file is set. */
  method NewClient(luName: Option<string>, hostName: string, hostPort: string, modelName: string,
                   verifyCert: Option<string>, enableTLS: Option<string>, codePage: Option<string>,
                   path: Option<string>, timeoutInSec: int, screensDir: Option<string>,
                   dirExists: bool, lines: seq<string>) returns (r: Result<P3270Client>)
    ensures var a := Attributes(hostName, hostPort, modelName, None, luName, codePage, screensDir,
                                Some("yes"), Some("no"));
      && (ParseInt(hostPort).None? ==> r == Err("ValueError"))
      && (ParseInt(hostPort).Some? ==>
            var bad := FailureNames(a, ParseInt(hostPort).value, dirExists);
            && (bad != [] ==> r == Err("InvalidConfiguration"))
            && (bad == [] && !Truthy(codePage) ==> r == Err("AttributeError"))
            && (bad == [] && Truthy(codePage) ==> r.Ok?))
    ensures r.Ok? ==>
      && fresh(r.value) && fresh(r.value.conf) && fresh(r.value.s3270) && fresh(r.value.s3270.subpro)
      && r.value.conf.Attrs() == Attributes(hostName, hostPort, modelName, None, luName, codePage, screensDir,
                                            Some("yes"), Some("no"))
      && r.value.conf.IsValid()
      && r.value.args == ArgList(Executable(path), true, modelName, hostPort, codePage, None, Some("yes"))
      && r.value.s3270.encoding == EncodingFor(codePage.value)
      && r.value.timeout == timeoutInSec && r.value.path == path
      && r.value.s3270.subpro.lines == lines && r.value.s3270.subpro.cursor == 0
      && r.value.s3270.subpro.written == []
      && r.value.s3270.buffer == None && r.value.s3270.statusMsg == None
  {
    var a := Attributes(hostName, hostPort, modelName, None, luName, codePage, screensDir, Some("yes"), Some("no"));
    r := Open(a, path, timeoutInSec, dirExists, lines);
  }

  /** P3270Client()'s default arguments. */
  const DefaultHostName := "localhost"
  const DefaultHostPort := "23"
  const DefaultModelName := "3279-2"
  const DefaultCodePage := Some("cp037")
  const DefaultTimeout := 20

  /** P3270Client() with every argument left at its default: the client
      opens, runs s3270 for model 3279-2 on port 23 with code page cp037,
      decodes latin1 and waits 20 seconds. */
  method NewDefaultClient(dirExists: bool, lines: seq<string>) returns (r: Result<P3270Client>)
    ensures r.Ok?
    ensures r.Ok? ==>
      && fresh(r.value) && fresh(r.value.conf) && fresh(r.value.s3270) && fresh(r.value.s3270.subpro)
      && r.value.conf.Attrs() == DefaultAttributes
      && r.value.args == ["s3270", "-model", "3279-2", "-port", "23", "-charset", "cp037"]
      && r.value.s3270.encoding == "latin1"
      && r.value.timeout == 20 && r.value.path == None
      && r.value.s3270.subpro.lines == lines && r.value.s3270.subpro.cursor == 0
  {
    DefaultsPass(dirExists);
    r := NewClient(None, DefaultHostName, DefaultHostPort, DefaultModelName, Some("yes"), Some("no"),
                   DefaultCodePage, None, DefaultTimeout, None, dirExists, lines);
    assert EncodingFor("cp037") == "latin1";
  }

  /** As written, the client's verifyCert and enableTLS never take effect:
      whatever is passed, a client connects with B: and passes no
      -noverifycert. */
  lemma ClientIgnoresTlsParameters(path: Option<string>, hostName: string, hostPort: string, modelName: string,
                                   luName: Option<string>, codePage: Option<string>, screensDir: Option<string>)
    requires modelName in ValidModels && ParseInt(hostPort).Some?
    requires Truthy(codePage) ==> KnownCodePage(codePage.value)
    ensures ConnectCommand(hostName, luName, Some("no"))[..10] == "Connect(B:"
    ensures "-noverifycert" !in ArgList(Executable(path), true, modelName, hostPort, codePage, None, Some("yes"))
  {
    ExecutablePath(path);
    NoVerifyCertFlag(Executable(path), true, modelName, hostPort, codePage, None, Some("yes"));
  }

  /** P3270Client(...) with the client's verifyCert and enableTLS passed on
      to the configuration, as the constructor's parameters and connect()
      evidently intend: they are validated like the other attributes, and a
      client that opens connects with L: exactly when enableTLS is yes and
      passes -noverifycert exactly when verifyCert is no. */
  method NewClientCorrected(luName: Option<string>, hostName: string, hostPort: string, modelName: string,
                            verifyCert: Option<string>, enableTLS: Option<string>, codePage: Option<string>,
                            path: Option<string>, timeoutInSec: int, screensDir: Option<string>,
                            dirExists: bool, lines: seq<string>) returns (r: Result<P3270Client>)
    ensures var a := Attributes(hostName, hostPort, modelName, None, luName, codePage, screensDir,
                                verifyCert, enableTLS);
      && (ParseInt(hostPort).None? ==> r == Err("ValueError"))
      && (ParseInt(hostPort).Some? ==>
            var bad := FailureNames(a, ParseInt(hostPort).value, dirExists);
            && (bad != [] ==> r == Err("InvalidConfiguration"))
            && (bad == [] && !Truthy(codePage) ==> r == Err("AttributeError"))
            && (bad == [] && Truthy(codePage) ==> r.Ok?))
    ensures r.Ok? ==>
      && fresh(r.value) && fresh(r.value.conf) && fresh(r.value.s3270) && fresh(r.value.s3270.subpro)
      && r.value.conf.verifyCert == verifyCert && r.value.conf.enableTLS == enableTLS
      && r.value.conf.hostName == hostName && r.value.conf.luName == luName
      && ("-noverifycert" in r.value.args <==> verifyCert == Some("no"))
      && ConnectCommand(r.value.conf.hostName, r.value.conf.luName, r.value.conf.enableTLS)[..10]
           == (if enableTLS == Some("yes") then "Connect(L:" else "Connect(B:")
  {
    var a := Attributes(hostName, hostPort, modelName, None, luName, codePage, screensDir, verifyCert, enableTLS);
    r := Open(a, path, timeoutInSec, dirExists, lines);
    if r.Ok? {
      var port := ParseInt(hostPort).value;
      ModelReported(a, port, dirExists);
      CodePageReported(a, port, dirExists);
      ExecutablePath(path);
      NoVerifyCertFlag(Executable(path), true, modelName, hostPort, codePage, None, verifyCert);
    }
  }
}
