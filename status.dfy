/** The s3270 status line: twelve blank-separated fields describing the
    terminal after each command, and the ten queries p3270 answers from it. */
module Status {
  import opened Wrappers
  import opened Text

  /** The number of fields in a well-formed status line. */
  const FieldCount := 12

  /** A decoded status line. A line that does not split into exactly twelve
      fields is kept only as Invalid, and every query on it answers None. */
  datatype StatusMessage =
    | Invalid
    | Valid(keyboard: string, screen: string, field: string, connection: string,
            emulator: string, model: string, numOfRows: string, numOfCols: string,
            cursorRow: string, cursorCol: string, winId: string, executionTime: string)
  {
    predicate IsValid() {
      Valid?
    }

    /** The twelve fields in wire order. */
    function Fields(): (fs: seq<string>)
      requires Valid?
      ensures |fs| == FieldCount
    {
      [keyboard, screen, field, connection, emulator, model,
       numOfRows, numOfCols, cursorRow, cursorCol, winId, executionTime]
    }

    /** The statusMessage attribute: the line itself, or twelve blanks once
        it has been found invalid. */
    function Text(): string {
      if Valid? then Join(Fields(), " ") else "            "
    }

    /** Field 0: U, L or E; anything else has no meaning. */
    function KeyboardState(): (r: Option<string>)
      ensures r.Some? <==> Valid? && (keyboard == "U" || keyboard == "L" || keyboard == "E")
      ensures r.Some? ==> r.value in {"Unlocked", "Locked", "Locked because of an operator error"}
      ensures r == Some("Unlocked") <==> Valid? && keyboard == "U"
      ensures r == Some("Locked") <==> Valid? && keyboard == "L"
      ensures r == Some("Locked because of an operator error") <==> Valid? && keyboard == "E"
    {
      if !Valid? then None
      else if keyboard == "U" then Some("Unlocked")
      else if keyboard == "L" then Some("Locked")
      else if keyboard == "E" then Some("Locked because of an operator error")
      else None
    }

    /** Field 1: F or U. */
    function ScreenFormatting(): (r: Option<string>)
      ensures r.Some? <==> Valid? && (screen == "F" || screen == "U")
      ensures r == Some("Formatted") <==> Valid? && screen == "F"
      ensures r == Some("Unformatted") <==> Valid? && screen == "U"
    {
      if !Valid? then None
      else if screen == "F" then Some("Formatted")
      else if screen == "U" then Some("Unformatted")
      else None
    }

    /** Field 2: P or U; any other value is reported as Unknown rather than None. */
    function FieldProtection(): (r: Option<string>)
      ensures r.Some? <==> Valid?
      ensures r == Some("Protected") <==> Valid? && field == "P"
      ensures r == Some("Unprotected") <==> Valid? && field == "U"
      ensures r == Some("Unknown") <==> Valid? && field != "P" && field != "U"
    {
      if !Valid? then None
      else if field == "P" then Some("Protected")
      else if field == "U" then Some("Unprotected")
      else Some("Unknown")
    }

    /** Field 3: "C(host)" when connected, "N" when not. */
    function ConnectionState(): (r: Option<bool>)
      ensures r.Some? <==> Valid? && (StartsWith(connection, "C(") || connection == "N")
      ensures r == Some(true) <==> Valid? && StartsWith(connection, "C(")
    {
      if !Valid? then None
      else if StartsWith(connection, "C(") then Some(true)
      else if connection == "N" then Some(false)
      else None
    }

    /** Field 4: the emulator mode letter. */
    function EmulatorMode(): (r: Option<string>)
      ensures r.Some? <==> Valid? && emulator in ["I", "L", "C", "P", "N"]
      ensures r == Some("3270") <==> Valid? && emulator == "I"
      ensures r == Some("NVT Line") <==> Valid? && emulator == "L"
      ensures r == Some("NVT Character") <==> Valid? && emulator == "C"
      ensures r == Some("Unnegotiated") <==> Valid? && emulator == "P"
      ensures r == Some("Not connected") <==> Valid? && emulator == "N"
    {
      if !Valid? then None
      else if emulator == "I" then Some("3270")
      else if emulator == "L" then Some("NVT Line")
      else if emulator == "C" then Some("NVT Character")
      else if emulator == "P" then Some("Unnegotiated")
      else if emulator == "N" then Some("Not connected")
      else None
    }

    /** Field 5, as it stands. */
    function ModelNumber(): (r: Option<string>)
      ensures r.Some? <==> Valid?
      ensures Valid? ==> r == Some(Fields()[5])
    {
      if Valid? then Some(model) else None
    }

    /** Fields 6 and 7 through int(): Err("ValueError") where int() raises. */
    function ScreenDefinition(): (r: Result<Option<(int, int)>>)
      ensures r == Ok(None) <==> !Valid?
      ensures r.Err? <==> Valid? && (ParseInt(numOfRows).None? || ParseInt(numOfCols).None?)
      ensures r.Err? ==> r.error == "ValueError"
      ensures r.Ok? && r.value.Some? ==>
        ParseInt(Fields()[6]) == Some(r.value.value.0) && ParseInt(Fields()[7]) == Some(r.value.value.1)
    {
      if !Valid? then Ok(None)
      else
        match (ParseInt(numOfRows), ParseInt(numOfCols))
        case (Some(rows), Some(cols)) => Ok(Some((rows, cols)))
        case _ => Err("ValueError")
    }

    /** Fields 8 and 9 through int(), each moved from the wire's 0-based
        origin to the 1-based origin of the client's API. */
    function CursorPosition(): (r: Result<Option<(int, int)>>)
      ensures r == Ok(None) <==> !Valid?
      ensures r.Err? <==> Valid? && (ParseInt(cursorRow).None? || ParseInt(cursorCol).None?)
      ensures r.Err? ==> r.error == "ValueError"
      ensures r.Ok? && r.value.Some? ==>
        ParseInt(Fields()[8]) == Some(r.value.value.0 - 1) && ParseInt(Fields()[9]) == Some(r.value.value.1 - 1)
    {
      if !Valid? then Ok(None)
      else
        match (ParseInt(cursorRow), ParseInt(cursorCol))
        case (Some(row), Some(col)) => Ok(Some((row + 1, col + 1)))
        case _ => Err("ValueError")
    }

    /** Field 10, only when it is the single window of s3270, "0x0". */
    function WindowId(): (r: Option<string>)
      ensures r.Some? <==> Valid? && winId == "0x0"
      ensures r.Some? ==> r.value == "0x0"
    {
      if Valid? && winId == "0x0" then Some(winId) else None
    }

    /** Field 11, as it stands ("-" when the host was not involved). */
    function ExecTime(): (r: Option<string>)
      ensures r.Some? <==> Valid?
      ensures Valid? ==> r == Some(Fields()[11])
    {
      if Valid? then Some(executionTime) else None
    }
  }

  /** StatusMessage(status): split on the single character ' ' exactly as
      str.split(' ') does, and keep the fields when there are twelve. */
  function Parse(status: string): (m: StatusMessage)
    ensures m.IsValid() <==> |Split(status, ' ')| == FieldCount
    ensures m.IsValid() ==> m.Fields() == Split(status, ' ')
    ensures m.Text() == if m.IsValid() then status else "            "
  {
    var f := Split(status, ' ');
    if |f| != FieldCount then Invalid
    else
      var m := Valid(f[0], f[1], f[2], f[3], f[4], f[5], f[6], f[7], f[8], f[9], f[10], f[11]);
      assert m.Fields() == f;
      JoinSplit(status, ' ');
      m
  }

  /** A line is valid exactly when it holds eleven blanks, wherever they are:
      empty fields count, so "" (end of stream) is one field and invalid. */
  lemma ValidIffElevenBlanks(status: string)
    ensures Parse(status).IsValid() <==> Count(status, ' ') == 11
  {
  }

  /** Every query on an invalid line answers None. */
  lemma InvalidAnswersNone(status: string)
    requires |Split(status, ' ')| != FieldCount
    ensures var m := Parse(status);
      && m.KeyboardState() == None && m.ScreenFormatting() == None
      && m.FieldProtection() == None && m.ConnectionState() == None
      && m.EmulatorMode() == None && m.ModelNumber() == None
      && m.ScreenDefinition() == Ok(None) && m.CursorPosition() == Ok(None)
      && m.WindowId() == None && m.ExecTime() == None
  {
  }

  /** The line read at end of stream is invalid. */
  lemma EndOfStreamIsInvalid()
    ensures !Parse("").IsValid()
  {
  }

  predicate Blankless(fs: seq<string>) {
    forall i :: 0 <= i < |fs| ==> ' ' !in fs[i]
  }

  /** Twelve blank-free fields written out with single blanks decode to
      exactly those fields. */
  lemma {:induction false} ParseFields(fs: seq<string>)
    requires |fs| == FieldCount && Blankless(fs)
    ensures Parse(Join(fs, " ")).IsValid()
    ensures Parse(Join(fs, " ")).Fields() == fs
  {
    SplitJoin(fs, ' ');
  }

  /** The queries with a fixed vocabulary, stated on the raw line: each answer
      comes from its own field, and both directions hold. */
  lemma QueriesOnFields(status: string)
    ensures var m := Parse(status); var f := Split(status, ' ');
      && (m.KeyboardState() == Some("Unlocked") <==> |f| == 12 && f[0] == "U")
      && (m.KeyboardState() == Some("Locked") <==> |f| == 12 && f[0] == "L")
      && (m.KeyboardState() == Some("Locked because of an operator error") <==> |f| == 12 && f[0] == "E")
      && (m.ScreenFormatting() == Some("Formatted") <==> |f| == 12 && f[1] == "F")
      && (m.ScreenFormatting() == Some("Unformatted") <==> |f| == 12 && f[1] == "U")
      && (m.FieldProtection() == Some("Protected") <==> |f| == 12 && f[2] == "P")
      && (m.FieldProtection() == Some("Unprotected") <==> |f| == 12 && f[2] == "U")
      && (m.FieldProtection() == Some("Unknown") <==> |f| == 12 && f[2] != "P" && f[2] != "U")
      && (m.ConnectionState() == Some(true) <==> |f| == 12 && StartsWith(f[3], "C("))
      && (m.ConnectionState() == Some(false) <==> |f| == 12 && f[3] == "N")
      && (m.WindowId().Some? <==> |f| == 12 && f[10] == "0x0")
    ensures var m := Parse(status); var f := Split(status, ' ');
      && (m.EmulatorMode() == Some("3270") <==> |f| == 12 && f[4] == "I")
      && (m.EmulatorMode() == Some("NVT Line") <==> |f| == 12 && f[4] == "L")
      && (m.EmulatorMode() == Some("NVT Character") <==> |f| == 12 && f[4] == "C")
      && (m.EmulatorMode() == Some("Unnegotiated") <==> |f| == 12 && f[4] == "P")
      && (m.EmulatorMode() == Some("Not connected") <==> |f| == 12 && f[4] == "N")
  {
  }

  /** The cursor the client reports is one row and one column further on than
      the 0-based position on the wire, with no clamping. */
  lemma {:induction false} CursorPositionIsOneBased(fs: seq<string>, row: int, col: int)
    requires |fs| == FieldCount && Blankless(fs)
    requires fs[8] == IntToString(row) && fs[9] == IntToString(col)
    ensures Parse(Join(fs, " ")).CursorPosition() == Ok(Some((row + 1, col + 1)))
  {
    ParseFields(fs);
    ParseIntToString(row);
    ParseIntToString(col);
  }

  /** The screen size is reported as it stands on the wire. */
  lemma {:induction false} ScreenDefinitionAsSent(fs: seq<string>, rows: int, cols: int)
    requires |fs| == FieldCount && Blankless(fs)
    requires fs[6] == IntToString(rows) && fs[7] == IntToString(cols)
    ensures Parse(Join(fs, " ")).ScreenDefinition() == Ok(Some((rows, cols)))
  {
    ParseFields(fs);
    ParseIntToString(rows);
    ParseIntToString(cols);
  }

  /** A size field that int() rejects surfaces as ValueError, not as None. */
  lemma {:induction false} ScreenDefinitionRejectsText(fs: seq<string>)
    requires |fs| == FieldCount && Blankless(fs)
    requires ParseInt(fs[6]).None? || ParseInt(fs[7]).None?
    ensures Parse(Join(fs, " ")).ScreenDefinition() == Err("ValueError")
  {
    ParseFields(fs);
  }

  /** Likewise a cursor field that int() rejects. */
  lemma {:induction false} CursorPositionRejectsText(fs: seq<string>)
    requires |fs| == FieldCount && Blankless(fs)
    requires ParseInt(fs[8]).None? || ParseInt(fs[9]).None?
    ensures Parse(Join(fs, " ")).CursorPosition() == Err("ValueError")
  {
    ParseFields(fs);
  }

  /** Six fields written out with single blanks. */
  lemma JoinSix(a: string, b: string, c: string, d: string, e: string, f: string)
    ensures Join([a, b, c, d, e, f], " ") == a + " " + b + " " + c + " " + d + " " + e + " " + f
  {
    JoinCons(e, [f], " ");
    JoinCons(d, [e, f], " ");
    JoinCons(c, [d, e, f], " ");
    JoinCons(b, [c, d, e, f], " ");
    JoinCons(a, [b, c, d, e, f], " ");
  }

  /** The fields of the status line of a connected 3270 session on a model 2
      screen (cursor at wire row 8, column 2), written out with blanks. */
  lemma SampleLineFields(front: seq<string>, back: seq<string>)
    requires front == ["U", "F", "U", "C(localhost)", "I", "2"]
    requires back == ["24", "80", "8", "2", "0x0", "0.000"]
    ensures Join(front + back, " ") == "U F U C(localhost) I 2 24 80 8 2 0x0 0.000"
  {
    SampleFront();
    SampleBack();
    JoinAppend(front, back, " ");
    SampleText();
  }

  /** Helper for SampleLineFields: the first six of those fields (status
      flags, connection and model) written out. */
  lemma SampleFront()
    ensures Join(["U", "F", "U", "C(localhost)", "I", "2"], " ") == "U F U C(localhost) I 2"
  {
    JoinSix("U", "F", "U", "C(localhost)", "I", "2");
  }

  /** Helper for SampleLineFields: the last six (size, cursor, window and
      time) written out. */
  lemma SampleBack()
    ensures Join(["24", "80", "8", "2", "0x0", "0.000"], " ") == "24 80 8 2 0x0 0.000"
  {
    JoinSix("24", "80", "8", "2", "0x0", "0.000");
  }

  /** Helper for SampleLineFields: the two halves and the blank between them
      spell the sample line. */
  lemma SampleText()
    ensures "U F U C(localhost) I 2" + " " + "24 80 8 2 0x0 0.000" == "U F U C(localhost) I 2 24 80 8 2 0x0 0.000"
  {
    var c := "U F U C(localhost) I 2" + " " + "24 80 8 2 0x0 0.000";
    assert |c| == 42;
    forall k | 0 <= k < 42 ensures c[k] == "U F U C(localhost) I 2 24 80 8 2 0x0 0.000"[k] {
    }
  }

  /** Helper for SampleLineParse: no field of the sample line holds a blank. */
  lemma SampleLineBlankless(fs: seq<string>)
    requires fs == ["U", "F", "U", "C(localhost)", "I", "2", "24", "80", "8", "2", "0x0", "0.000"]
    ensures |fs| == FieldCount && Blankless(fs)
  {
    forall i | 0 <= i < |fs| ensures ' ' !in fs[i] {
      var f := fs[i];
      assert forall k :: 0 <= k < |f| ==> f[k] != ' ';
    }
  }

  lemma SampleLineParse(line: string)
    requires line == "U F U C(localhost) I 2 24 80 8 2 0x0 0.000"
    ensures Parse(line) == Valid("U", "F", "U", "C(localhost)", "I", "2", "24", "80", "8", "2", "0x0", "0.000")
  {
    var front := ["U", "F", "U", "C(localhost)", "I", "2"];
    var back := ["24", "80", "8", "2", "0x0", "0.000"];
    SampleLineFields(front, back);
    SampleLineBlankless(front + back);
    ParseFields(front + back);
  }

  /** What the client reads from the fields of a connected 3270 session on a
      model 2 screen. */
  predicate ConnectedModelTwo(m: StatusMessage) {
    && m.IsValid()
    && m.KeyboardState() == Some("Unlocked")
    && m.ScreenFormatting() == Some("Formatted")
    && m.FieldProtection() == Some("Unprotected")
    && m.ConnectionState() == Some(true)
    && m.EmulatorMode() == Some("3270")
    && m.ModelNumber() == Some("2")
    && m.ScreenDefinition() == Ok(Some((24, 80)))
    && m.CursorPosition() == Ok(Some((9, 3)))
    && m.WindowId() == Some("0x0")
    && m.ExecTime() == Some("0.000")
  }

  lemma SampleQueries(m: StatusMessage)
    requires m == Valid("U", "F", "U", "C(localhost)", "I", "2", "24", "80", "8", "2", "0x0", "0.000")
    ensures ConnectedModelTwo(m)
  {
    assert IntToString(8) == "8" && IntToString(2) == "2";
    assert IntToString(24) == "24" && IntToString(80) == "80";
    ParseIntToString(8);
    ParseIntToString(2);
    ParseIntToString(24);
    ParseIntToString(80);
    assert StartsWith("C(localhost)", "C(");
  }

  /** The status line of a connected 3270 session on a model 2 screen, with the
      cursor at wire position (8, 2), reads as 24 by 80 with the cursor at (9, 3). */
  lemma {:induction false} ConnectedModelTwoLine(line: string)
    requires line == "U F U C(localhost) I 2 24 80 8 2 0x0 0.000"
    ensures ConnectedModelTwo(Parse(line))
  {
    SampleLineParse(line);
    SampleQueries(Parse(line));
  }
}
