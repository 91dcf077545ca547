/** The command channel to the s3270 emulator: one command line written to
    its stdin, then a response read from its stdout. A response is a run of
    "data:" lines, the status line, and a result line that is "ok" on
    success (p3270/p3270.py, class S3270). */
module Channel {
  import opened Wrappers
  import opened Text
  import opened Status

  /** What readline() gives for the i-th read: past the end of the stream it
      is the empty string. */
  function LineAt(lines: seq<string>, i: nat): string {
    if i < |lines| then lines[i] else ""
  }

  /** A line as check sees it: readline().decode().rstrip('\n').rstrip('\r'). */
  function Chomp(raw: string): string {
    RStrip(RStrip(raw, '\n'), '\r')
  }

  /** Chomp keeps a prefix of the raw line that does not end in a carriage
      return; a line without a line end is kept whole, and a line with one
      newline after its last character has just that newline removed. */
  lemma ChompLine(raw: string)
    ensures var r := Chomp(raw);
      && |r| <= |raw| && r == raw[..|r|]
      && (|r| > 0 ==> r[|r| - 1] != '\r')
      && ((|raw| == 0 || (raw[|raw| - 1] != '\n' && raw[|raw| - 1] != '\r')) ==> r == raw)
      && (|raw| > 0 && raw[|raw| - 1] == '\n'
          && (|raw| == 1 || (raw[|raw| - 2] != '\n' && raw[|raw| - 2] != '\r'))
          ==> r == raw[..|raw| - 1])
  {
    var s := RStrip(raw, '\n');
    RStripPrefix(raw, '\n');
    RStripPrefix(s, '\r');
    var r := RStrip(s, '\r');
    assert r == s[..|r|];
    assert s[..|r|] == raw[..|r|];
    if |raw| > 0 && raw[|raw| - 1] == '\n' {
      RStripPrefix(raw[..|raw| - 1], '\n');
    }
  }

  /** A line that ends in one newline, after a character that is not a line
      end, is read as the text before that newline. */
  lemma ChompNewline(s: string)
    requires |s| > 0 && s[|s| - 1] != '\n' && s[|s| - 1] != '\r'
    ensures Chomp(s + "\n") == s
  {
    ChompLine(s + "\n");
    assert (s + "\n")[..|s|] == s;
  }

  /** Data lines are told apart from the status line by their prefix alone. */
  predicate IsData(line: string) {
    StartsWith(line, "data:")
  }

  /** line[6:]: the prefix and the one separator character after it dropped. */
  function Payload(line: string): (p: string)
    ensures |line| >= 6 ==> line == line[..6] + p
    ensures |line| <= 6 ==> p == ""
  {
    From(line, 6)
  }

  /** The length of the run of data lines starting at read position from. */
  function DataCount(lines: seq<string>, from: nat): (n: nat)
    ensures n > 0 ==> from + n <= |lines|
    decreases |lines| - from
  {
    if from < |lines| && IsData(Chomp(lines[from])) then 1 + DataCount(lines, from + 1) else 0
  }

  /** DataCount is exactly the run: every line in it is data, the line after
      it is not, and it stays inside the stream. */
  lemma {:induction false} DataCountIsRun(lines: seq<string>, from: nat)
    ensures forall j :: from <= j < from + DataCount(lines, from) ==> IsData(Chomp(LineAt(lines, j)))
    ensures !IsData(Chomp(LineAt(lines, from + DataCount(lines, from))))
    ensures DataCount(lines, from) > 0 ==> from + DataCount(lines, from) <= |lines|
    decreases |lines| - from
  {
    if from < |lines| && IsData(Chomp(lines[from])) {
      DataCountIsRun(lines, from + 1);
    } else if from >= |lines| {
      assert Chomp(LineAt(lines, from)) == "";
    }
  }

  /** The k-th line from position from is a data line exactly while k is
      still inside the run. */
  lemma {:induction false} RunAt(lines: seq<string>, from: nat, k: nat)
    requires k <= DataCount(lines, from)
    ensures IsData(Chomp(LineAt(lines, from + k))) <==> k < DataCount(lines, from)
    ensures k < DataCount(lines, from) ==> from + k < |lines|
    decreases k
  {
    if k == 0 {
      if !(from < |lines| && IsData(Chomp(lines[from]))) && from >= |lines| {
        assert Chomp(LineAt(lines, from)) == "";
      }
    } else {
      RunAt(lines, from + 1, k - 1);
      assert from + 1 + (k - 1) == from + k;
    }
  }

  /** The payloads of the n lines read from position from on. */
  function Payloads(lines: seq<string>, from: nat, n: nat): (ps: seq<string>)
    ensures |ps| == n
  {
    seq(n, i requires 0 <= i < n => Payload(Chomp(LineAt(lines, from + i))))
  }

  /** Everything one check reads: where the cursor ends up, the buffer after
      it, and the status and result lines. */
  datatype Response = Response(cursor: nat, buffer: Option<string>, status: string, result: string)

  /** The response check reads from position from, given the buffer it
      starts with. The buffer is replaced only when there is a data line. */
  function Respond(lines: seq<string>, from: nat, buffer: Option<string>): (r: Response)
    ensures !IsData(r.status)
    ensures r.cursor >= from + 2
    ensures r.buffer != buffer ==> r.buffer.Some? && DataCount(lines, from) > 0
  {
    var n := DataCount(lines, from);
    DataCountIsRun(lines, from);
    Response(from + n + 2,
             if n == 0 then buffer else Some(Join(Payloads(lines, from, n), "\n")),
             Chomp(LineAt(lines, from + n)),
             Chomp(LineAt(lines, from + n + 1)))
  }

  /** The emulator process seen through its pipes: the lines it will write to
      stdout (each as one readline() returns it) and what has been written to
      its stdin. */
  class Pipe {
    var lines: seq<string>
    var cursor: nat
    var written: seq<string>

    constructor (lines: seq<string>)
      ensures this.lines == lines && cursor == 0 && written == []
    {
      this.lines := lines;
      cursor := 0;
      written := [];
    }

    /** stdout.readline().decode(): the next line, or "" at end of stream. */
    method ReadLine() returns (line: string)
      modifies this`cursor
      ensures line == LineAt(lines, old(cursor))
      ensures cursor == old(cursor) + 1
    {
      line := LineAt(lines, cursor);
      cursor := cursor + 1;
    }

    /** stdin.write followed by stdin.flush. */
    method Write(data: string)
      modifies this`written
      ensures written == old(written) + [data]
    {
      written := written + [data];
    }
  }

  /** The interface to the s3270 executable. */
  class S3270 {
    const args: seq<string>
    const encoding: string
    const subpro: Pipe
    var buffer: Option<string>
    var statusMsg: Option<StatusMessage>
    var cmd: Option<string>

    constructor (args: seq<string>, encoding: string, subpro: Pipe)
      ensures this.args == args && this.encoding == encoding && this.subpro == subpro
      ensures buffer == None && statusMsg == None && cmd == None
    {
      this.args := args;
      this.encoding := encoding;
      this.subpro := subpro;
      buffer := None;
      statusMsg := None;
      cmd := None;
    }

    /** check(doNotCheck): with doNotCheck nothing is read and the answer is
        success; otherwise the response is read and the answer is whether its
        result line is "ok". */
    method Check(doNotCheck: bool) returns (ok: bool)
      modifies this`buffer, this`statusMsg, subpro`cursor
      ensures doNotCheck ==> ok && subpro.cursor == old(subpro.cursor)
      ensures doNotCheck ==> buffer == old(buffer) && statusMsg == old(statusMsg)
      ensures !doNotCheck ==>
        var r := Respond(subpro.lines, old(subpro.cursor), old(buffer));
        && subpro.cursor == r.cursor
        && buffer == r.buffer
        && statusMsg == Some(Parse(r.status))
        && (ok <==> r.result == "ok")
    {
      if doNotCheck {
        return true;
      }
      ghost var lines, c0, b0 := subpro.lines, subpro.cursor, buffer;
      var status := ReadData();
      var raw := subpro.ReadLine();
      var returnMsg := Chomp(raw);
      statusMsg := Some(Parse(status));
      ok := returnMsg == "ok";
    }

    /** The first half of check: the run of data lines, each appended to the
        buffer (the first one replacing it), and the status line after it. */
    method ReadData() returns (status: string)
      modifies this`buffer, subpro`cursor
      ensures subpro.cursor == old(subpro.cursor) + DataCount(subpro.lines, old(subpro.cursor)) + 1
      ensures buffer == Respond(subpro.lines, old(subpro.cursor), old(buffer)).buffer
      ensures status == Respond(subpro.lines, old(subpro.cursor), old(buffer)).status
    {
      ghost var lines, c0 := subpro.lines, subpro.cursor;
      ghost var n := DataCount(lines, c0);
      RunAt(lines, c0, 0);
      var raw := subpro.ReadLine();
      var data := Chomp(raw);
      if !IsData(data) {
        status := data;
      } else {
        buffer := Some(Payload(data));
        assert Payloads(lines, c0, 1) == [Payload(data)];
        status := ReadMoreData();
      }
    }

    /** The while loop of check, entered once the first data line is in the
        buffer: every further data line is appended after a newline. */
    method ReadMoreData() returns (status: string)
      requires 1 <= subpro.cursor
      requires var c0 := subpro.cursor - 1;
        && 1 <= DataCount(subpro.lines, c0)
        && buffer == Some(Join(Payloads(subpro.lines, c0, 1), "\n"))
      modifies this`buffer, subpro`cursor
      ensures var c0 := old(subpro.cursor) - 1;
        var n := DataCount(subpro.lines, c0);
        && subpro.cursor == c0 + n + 1
        && buffer == Some(Join(Payloads(subpro.lines, c0, n), "\n"))
        && status == Chomp(LineAt(subpro.lines, c0 + n))
    {
      ghost var lines, c0 := subpro.lines, subpro.cursor - 1;
      ghost var n := DataCount(lines, c0);
      status := "";
      var go := true;
      while go
        invariant subpro.lines == lines
        invariant go ==> 1 <= subpro.cursor - c0 <= n && subpro.cursor <= |lines|
        invariant go ==> buffer == Some(Join(Payloads(lines, c0, subpro.cursor - c0), "\n"))
        invariant !go ==> subpro.cursor == c0 + n + 1
        invariant !go ==> buffer == Some(Join(Payloads(lines, c0, n), "\n"))
        invariant !go ==> status == Chomp(LineAt(lines, c0 + n))
        decreases if go then |lines| + 1 - subpro.cursor else 0
      {
        ghost var k := subpro.cursor - c0;
        RunAt(lines, c0, k);
        var raw := subpro.ReadLine();
        var data := Chomp(raw);
        if !IsData(data) {
          go := false;
          status := data;
          assert k == n;
        } else {
          assert Payloads(lines, c0, k + 1) == Payloads(lines, c0, k) + [Payload(data)];
          JoinSnoc(Payloads(lines, c0, k), Payload(data), "\n");
          buffer := Some(buffer.value + "\n" + Payload(data));
        }
      }
    }

    /** The effect of do(c) on the channel, from the state before it to the
        state after it: the line written, and the response read unless c is
        Quit. */
    twostate predicate Sent(c: string)
      reads this, subpro
    {
      && subpro.lines == old(subpro.lines)
      && subpro.written == old(subpro.written) + [c + "\n"]
      && cmd == Some(c + "\n")
      && if c == "Quit" then
           subpro.cursor == old(subpro.cursor) && buffer == old(buffer) && statusMsg == old(statusMsg)
         else
           var r := Respond(subpro.lines, old(subpro.cursor), old(buffer));
           && subpro.cursor == r.cursor
           && buffer == r.buffer
           && statusMsg == Some(Parse(r.status))
    }

    /** do(c) with answer ok: success after Quit, otherwise exactly when the
        result line is "ok". */
    twostate predicate Performed(c: string, ok: bool)
      reads this, subpro
    {
      && Sent(c)
      && (ok <==> c == "Quit" || Respond(subpro.lines, old(subpro.cursor), old(buffer)).result == "ok")
    }

    /** do(c): write the command and its newline, then read the response,
        except after Quit, when the emulator exits without answering. */
    method Do(c: string) returns (ok: bool)
      modifies this`cmd, this`buffer, this`statusMsg, subpro
      ensures Performed(c, ok)
    {
      cmd := Some(c + "\n");
      subpro.Write(c + "\n");
      if c + "\n" == "Quit\n" {
        assert c == (c + "\n")[..|c|];
        ok := Check(true);
      } else {
        assert c != "Quit";
        ok := Check(false);
      }
    }
  }

  /** When the first line is not a data line it is the status line, exactly
      two lines are read, and the buffer keeps whatever it held before. */
  lemma RespondWithoutData(lines: seq<string>, from: nat, buffer: Option<string>)
    requires !IsData(Chomp(LineAt(lines, from)))
    ensures Respond(lines, from, buffer)
      == Response(from + 2, buffer, Chomp(LineAt(lines, from)), Chomp(LineAt(lines, from + 1)))
  {
  }

  lemma {:induction false} DataCountOfRun(pre: seq<string>, ds: seq<string>, rest: seq<string>)
    requires forall i :: 0 <= i < |ds| ==> IsData(Chomp(ds[i]))
    requires |rest| > 0 && !IsData(Chomp(rest[0]))
    ensures DataCount(pre + ds + rest, |pre|) == |ds|
    decreases |ds|
  {
    var lines := pre + ds + rest;
    if |ds| == 0 {
      assert lines[|pre|] == rest[0];
    } else {
      assert lines[|pre|] == ds[0];
      assert lines == (pre + [ds[0]]) + ds[1..] + rest;
      DataCountOfRun(pre + [ds[0]], ds[1..], rest);
    }
  }

  /** With N >= 1 data lines in front of the status line, the buffer becomes
      their payloads joined by newlines in arrival order, the status is the
      next line, the result the one after, and exactly N + 2 lines are read. */
  lemma {:induction false} RespondWithData(pre: seq<string>, ds: seq<string>, status: string,
                                           result: string, post: seq<string>, buffer: Option<string>)
    requires |ds| >= 1 && forall i :: 0 <= i < |ds| ==> IsData(Chomp(ds[i]))
    requires !IsData(Chomp(status))
    ensures var lines := pre + ds + [status, result] + post;
      Respond(lines, |pre|, buffer)
        == Response(|pre| + |ds| + 2,
                    Some(Join(seq(|ds|, i requires 0 <= i < |ds| => Payload(Chomp(ds[i]))), "\n")),
                    Chomp(status), Chomp(result))
  {
    var lines := pre + ds + [status, result] + post;
    assert lines == pre + ds + ([status, result] + post);
    DataCountOfRun(pre, ds, [status, result] + post);
    assert LineAt(lines, |pre| + |ds|) == status;
    assert LineAt(lines, |pre| + |ds| + 1) == result;
    forall i | 0 <= i < |ds| ensures LineAt(lines, |pre| + i) == ds[i] {
      assert lines[|pre| + i] == ds[i];
    }
    assert Payloads(lines, |pre|, |ds|) == seq(|ds|, i requires 0 <= i < |ds| => Payload(Chomp(ds[i])));
  }

  /** At end of stream both the status and the result line read as "": the
      status is invalid, the command fails, and the buffer is left alone. */
  lemma RespondAtEnd(lines: seq<string>, from: nat, buffer: Option<string>)
    requires from >= |lines|
    ensures var r := Respond(lines, from, buffer);
      && r == Response(from + 2, buffer, "", "")
      && !Parse(r.status).IsValid() && r.result != "ok"
  {
  }

  /** The data lines of a response hide nothing from the caller: the buffer
      has one line per data line, and each is that line's payload, provided
      the payloads hold no line break and the last is not empty. */
  lemma {:induction false} BufferLinesArePayloads(pre: seq<string>, ds: seq<string>, status: string,
                                                  result: string, post: seq<string>, buffer: Option<string>)
    requires |ds| >= 1 && forall i :: 0 <= i < |ds| ==> IsData(Chomp(ds[i]))
    requires !IsData(Chomp(status))
    requires forall i :: 0 <= i < |ds| ==> NoLineBoundary(Payload(Chomp(ds[i])))
    requires Payload(Chomp(ds[|ds| - 1])) != ""
    ensures var r := Respond(pre + ds + [status, result] + post, |pre|, buffer);
      && r.buffer.Some?
      && SplitLines(r.buffer.value) == seq(|ds|, i requires 0 <= i < |ds| => Payload(Chomp(ds[i])))
  {
    RespondWithData(pre, ds, status, result, post, buffer);
    SplitLinesJoin(seq(|ds|, i requires 0 <= i < |ds| => Payload(Chomp(ds[i]))));
  }

  // ---- the responses the tests feed the client ----

  /** A bare status line and ok: success, the buffer untouched, and the
      status read as a connected 3270 session on a model 2 screen. */
  lemma {:induction false} ValidResponse(line: string, buffer: Option<string>)
    requires line == "U F U C(localhost) I 2 24 80 8 2 0x0 0.000"
    ensures var r := Respond([line + "\n", "ok"], 0, buffer);
      && r == Response(2, buffer, line, "ok")
      && ConnectedModelTwo(Parse(r.status))
  {
    ValidLines(line, buffer);
    ConnectedModelTwoLine(line);
  }

  /** The two lines of that response as check reads them. */
  lemma ValidLines(line: string, buffer: Option<string>)
    requires |line| > 0 && line[0] != 'd' && line[|line| - 1] != '\n' && line[|line| - 1] != '\r'
    ensures Respond([line + "\n", "ok"], 0, buffer) == Response(2, buffer, line, "ok")
  {
    ChompNewline(line);
    ChompLine("ok");
    assert !IsData(line) by { assert line[0] != "data:"[0]; }
    RespondWithoutData([line + "\n", "ok"], 0, buffer);
  }

  /** The answer to NoOpCommand when not connected: one data line, whose
      payload becomes the buffer, a status saying not connected, and a failed
      result. */
  lemma {:induction false} DisconnectedResponse(data: string, status: string, buffer: Option<string>)
    requires data == "data: Unknown action: NoOpCommand"
    requires status == "L U U N N 2 24 80 0 0 0x0 -"
    ensures var r := Respond([data + "\n", status + "\n", "error"], 0, buffer);
      && r == Response(3, Some("Unknown action: NoOpCommand"), status, "error")
      && Parse(r.status).ConnectionState() == Some(false)
  {
    DisconnectedLines(data, status, buffer);
    DisconnectedStatus(status);
  }

  lemma {:induction false} DisconnectedLines(data: string, status: string, buffer: Option<string>)
    requires data == "data: Unknown action: NoOpCommand"
    requires status == "L U U N N 2 24 80 0 0 0x0 -"
    ensures Respond([data + "\n", status + "\n", "error"], 0, buffer)
      == Response(3, Some("Unknown action: NoOpCommand"), status, "error")
  {
    DisconnectedChomp(data, status);
    RespondWithData([], [data + "\n"], status + "\n", "error", [], buffer);
    assert [] + [data + "\n"] + [status + "\n", "error"] + [] == [data + "\n", status + "\n", "error"];
    assert Join(["Unknown action: NoOpCommand"], "\n") == "Unknown action: NoOpCommand";
  }

  /** The two lines as check sees them: the data line and its payload, and
      the status line, which is not data. */
  lemma DisconnectedChomp(data: string, status: string)
    requires data == "data: Unknown action: NoOpCommand"
    requires status == "L U U N N 2 24 80 0 0 0x0 -"
    ensures Chomp(data + "\n") == data && Chomp(status + "\n") == status
    ensures IsData(data) && !IsData(status) && Payload(data) == "Unknown action: NoOpCommand"
  {
    ChompNewline(data);
    ChompNewline(status);
    assert IsData(data) by { assert data[..5] == "data:"; }
    assert !IsData(status) by { assert status[0] != 'd'; }
  }

  /** Helper for DisconnectedResponse: the status line says not connected. */
  lemma {:induction false} DisconnectedStatus(status: string)
    requires status == "L U U N N 2 24 80 0 0 0x0 -"
    ensures Parse(status).ConnectionState() == Some(false)
  {
    var front := ["L", "U", "U", "N", "N", "2"];
    var back := ["24", "80", "0", "0", "0x0", "-"];
    DisconnectedJoin(front, back);
    DisconnectedBlankless(front + back);
    ParseFields(front + back);
    assert (front + back)[3] == "N";
  }

  /** Helper for DisconnectedStatus: its fields joined with blanks are the line. */
  lemma DisconnectedJoin(front: seq<string>, back: seq<string>)
    requires front == ["L", "U", "U", "N", "N", "2"]
    requires back == ["24", "80", "0", "0", "0x0", "-"]
    ensures Join(front + back, " ") == "L U U N N 2 24 80 0 0 0x0 -"
  {
    DisconnectedHalves(front, back);
    JoinAppend(front, back, " ");
    DisconnectedText();
  }

  /** Helper for DisconnectedJoin: the two halves of the fields written out. */
  lemma DisconnectedHalves(front: seq<string>, back: seq<string>)
    requires front == ["L", "U", "U", "N", "N", "2"]
    requires back == ["24", "80", "0", "0", "0x0", "-"]
    ensures Join(front, " ") == "L U U N N 2" && Join(back, " ") == "24 80 0 0 0x0 -"
  {
    JoinSix("L", "U", "U", "N", "N", "2");
    JoinSix("24", "80", "0", "0", "0x0", "-");
  }

  /** Helper for DisconnectedJoin: the two halves and the blank between them
      spell the status line. */
  lemma DisconnectedText()
    ensures "L U U N N 2" + " " + "24 80 0 0 0x0 -" == "L U U N N 2 24 80 0 0 0x0 -"
  {
    var c := "L U U N N 2" + " " + "24 80 0 0 0x0 -";
    assert |c| == 27;
    forall k | 0 <= k < 27 ensures c[k] == "L U U N N 2 24 80 0 0 0x0 -"[k] {
    }
  }

  /** Helper for DisconnectedStatus: no field of that status line holds a blank. */
  lemma DisconnectedBlankless(fs: seq<string>)
    requires fs == ["L", "U", "U", "N", "N", "2", "24", "80", "0", "0", "0x0", "-"]
    ensures |fs| == FieldCount && Blankless(fs)
  {
    forall i | 0 <= i < |fs| ensures ' ' !in fs[i] {
      var f := fs[i];
      assert forall k :: 0 <= k < |f| ==> f[k] != ' ';
    }
  }

  /** An empty line and then end of stream: the status is invalid, so every
      query answers None, the command fails and the buffer is untouched. */
  lemma {:induction false} InvalidResponse(buffer: Option<string>)
    ensures var r := Respond(["\n", ""], 0, buffer);
      && r == Response(2, buffer, "", "")
      && !Parse(r.status).IsValid() && r.result != "ok"
  {
    assert RStrip("\n", '\n') == "" by {
      assert "\n"[..0] == "";
    }
    assert !IsData("");
    RespondWithoutData(["\n", ""], 0, buffer);
    EndOfStreamIsInvalid();
  }
}
