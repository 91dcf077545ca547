# p3270 in Dafny

A model of p3270, the Python library that drives IBM 3270 sessions through
the `s3270` emulator, and proofs about it. The library starts `s3270` as a
subprocess. It then talks to it one action at a time: it writes an action
line to the emulator's stdin and reads the response from its stdout.

The model has seven modules. Five follow the classes of `p3270/p3270.py`, and `Wrappers` and `Text` are support modules:

- `Wrappers` (wrappers.dfy). `Option` and `Result`. An `Err` carries the name of the Python exception the source raises.
- `Text` (text.dfy). The Python string operations the library relies on:
  - `str.split` on one character, `str.join` and `str.startswith`;
  - slicing, `rstrip` and `splitlines`;
  - `int()` and `str()` on integers.
- `Status` (status.dfy). The status line as a `StatusMessage` datatype with its ten queries.
- `Channel` (channel.dfy). These pieces model the response protocol of class `S3270`:
  - the emulator's pipes, as a `Pipe` class: a line source with a read cursor, plus the lines written to it;
  - the `S3270` class with `Do` (do) and `Check` (check);
  - the function `Respond`, which says what one response read consumes and yields.
- `Configuration` (config.dfy). Class `Config`: the lookup tables, the validation checks and the encoding derived from the code page.
- `Commands` (commands.dfy). One pure function per action line the client builds. `ParseCall` reads a line back into its name and arguments. The `...ReadsBack` lemmas show that each builder sends exactly the arguments it was given. The exception is free text (a key, a file name, the text of `stringAt`): it goes into the line unquoted, so the emulator reads it unchanged only when it holds no comma and does not start with a blank. The lemmas state what it is read as otherwise.
- `Client` (client.dfy). Class `P3270Client`: one method per operation. Each method calls `S3270.Do` with the line its builder makes. It also holds `makeArgs` and the construction of a client.

### How a response is read
A response (p3270/p3270.py:46-82) has three parts:
- a run of `data:` lines;
- one status line;
- one result line, which is `ok` on success.

`Channel.Respond` states this as a function of the stream and the read position. The loop methods `Check`, `ReadData` and `ReadMoreData` are proved against it.

Two behaviours of the code that a reimplementation might not expect are modelled as the code has them:
- The buffer is not reset. A response without data lines leaves `buffer` as the previous command left it (p3270/p3270.py:57-58). It does not become empty. See `Channel.RespondWithoutData`.
- End of stream is not an error. `readline()` at end of stream gives `""`, so the status is the invalid `""` and the command answers `False`. Nothing is raised. See `Channel.RespondAtEnd`.

### Effects of operations
- `S3270.Sent(c)` is a two-state predicate. It states the whole effect of one `do(c)`:
  - the line written;
  - the new `cmd`;
  - the new cursor, buffer and status, as `Respond` gives them (or unchanged, for `Quit`).
- `S3270.Performed(c, ok)` adds the answer to `Sent(c)`.

Each client method's postcondition is one of:
- `Performed` of the exact line its builder makes;
- `Sent`, for the methods that return the buffer or the status instead of the answer;
- "nothing changed", for guarded operations that send nothing.

## Model

| member | source | states |
|---|---|---|
| `Text.From` | p3270/p3270.py:60-60 | the slice `s[n:]`: what follows the first n characters, empty when n is past the end |
| `Text.RStrip` | p3270/p3270.py:56-56 | `rstrip(c)`; its properties are stated by `Text.RStripPrefix` |
| `Text.RStripPrefix` | p3270/p3270.py:56-56 | `rstrip(c)` leaves a prefix that does not end in c, and removes nothing when the text does not end in c |
| `Text.Join` | p3270/p3270.py:60-73 | `sep.join(xs)`; `Text.JoinSplit` and `Text.SplitJoin` state it is the inverse of `Text.Split` |
| `Text.IntToString` | p3270/p3270.py:177-177 | `str(i)` and `"{}".format(i)`: a non-empty run of digits and minus signs; `Text.ParseIntToString` states that `int()` reads it back |
| `Text.ParseInt` | p3270/p3270.py:648-648 | `int()` on an optional sign and decimal digits, None where Python raises ValueError; `Text.ParseIntToString` states that it inverts `Text.IntToString` |
| `Text.SplitLines` | p3270/p3270.py:383-384 | `str.splitlines()`; `Text.SplitLinesJoin` states the round trip with a newline join |
| `Text.Split` | p3270/p3270.py:683-698 | `str.split(' ')` keeps empty fields, so there is one field more than there are separators, and no field holds the separator |
| `Text.JoinSplit` | p3270/p3270.py:683-698 | joining the fields of a split with the separator gives the text back |
| `Text.SplitJoin` | p3270/p3270.py:683-698 | fields without the separator, joined and split again, come back unchanged |
| `Text.ParseIntToString` | p3270/p3270.py:796-804 | `int(str(i)) == i` for every integer, negative ones included |
| `Text.SplitLinesJoin` | p3270/p3270.py:383-384 | lines joined with newlines split back into the same lines when none holds a line boundary and the last is not empty |
| `Status.Parse` | p3270/p3270.py:681-699 | the message is valid exactly when the line splits into 12 fields; the fields are then the split, in order; the text kept is the line, or 12 blanks when invalid |
| `Status.StatusMessage.IsValid` | p3270/p3270.py:701-702 | `isValid()`; `Status.Parse` states it holds exactly for a line of twelve fields |
| `Status.StatusMessage.Text` | p3270/p3270.py:682-684 | the `statusMessage` attribute; `Status.Parse` states it is the line, or twelve blanks when invalid |
| `Status.StatusMessage.KeyboardState` | p3270/p3270.py:704-718 | an answer exactly for a valid line whose field 0 is U, L or E: Unlocked exactly for U, Locked exactly for L, the operator-error lock exactly for E |
| `Status.StatusMessage.ScreenFormatting` | p3270/p3270.py:720-731 | an answer exactly for F or U on a valid line; Formatted exactly for F and Unformatted exactly for U |
| `Status.StatusMessage.FieldProtection` | p3270/p3270.py:733-746 | an answer for every valid line; Protected exactly for P, Unprotected exactly for U, Unknown exactly when field 2 is neither |
| `Status.StatusMessage.ConnectionState` | p3270/p3270.py:748-759 | an answer exactly when field 3 starts with `C(` or is `N`; True exactly for `C(` |
| `Status.StatusMessage.EmulatorMode` | p3270/p3270.py:761-781 | an answer exactly for I, L, C, P and N; 3270 exactly for I, NVT Line for L, NVT Character for C, Unnegotiated for P and Not connected for N |
| `Status.StatusMessage.ModelNumber` | p3270/p3270.py:783-789 | field 5 as it stands, for every valid line |
| `Status.StatusMessage.ScreenDefinition` | p3270/p3270.py:791-797 | None exactly for an invalid line; ValueError exactly when `int()` rejects field 6 or 7; otherwise the two numbers `int()` reads there |
| `Status.StatusMessage.CursorPosition` | p3270/p3270.py:799-805 | None exactly for an invalid line; ValueError exactly when `int()` rejects field 8 or 9; otherwise those numbers plus one |
| `Status.StatusMessage.WindowId` | p3270/p3270.py:807-816 | an answer exactly when field 10 is `0x0`, and it is `0x0` |
| `Status.StatusMessage.ExecTime` | p3270/p3270.py:818-825 | field 11 as it stands, for every valid line |
| `Status.ValidIffElevenBlanks` | p3270/p3270.py:683-685 | a status line is valid exactly when it holds eleven blanks, wherever they are |
| `Status.InvalidAnswersNone` | p3270/p3270.py:701-825 | on an invalid line all ten queries answer None |
| `Status.EndOfStreamIsInvalid` | p3270/p3270.py:683-685 | the empty line read at end of stream is invalid |
| `Status.ParseFields` | p3270/p3270.py:686-699 | twelve blank-free fields written with single blanks decode to exactly those fields |
| `Status.QueriesOnFields` | p3270/p3270.py:704-816 | in both directions, on the split fields: keyboard U/L/E, formatting F/U, protection P/U and Unknown for anything else, connected iff field 3 starts with `C(`, not connected iff it is `N`, emulator mode I/L/C/P/N, window id only for `0x0` |
| `Status.CursorPositionIsOneBased` | p3270/p3270.py:799-805 | the cursor is reported as wire row + 1 and wire column + 1, with no clamping |
| `Status.ScreenDefinitionAsSent` | p3270/p3270.py:791-797 | the screen size is reported as the rows and columns on the wire |
| `Status.ScreenDefinitionRejectsText` | p3270/p3270.py:791-797 | on twelve blank-free fields, a row or column count `int()` rejects gives ValueError, not None |
| `Status.CursorPositionRejectsText` | p3270/p3270.py:799-805 | on twelve blank-free fields, a cursor row or column `int()` rejects gives ValueError, not None |
| `Status.ConnectedModelTwoLine` | p3270/test/test_p3270.py:235-249 | `U F U C(localhost) I 2 24 80 8 2 0x0 0.000` reads as unlocked, formatted, unprotected, connected, 3270 mode, model 2, 24 by 80, cursor (9, 3), window 0x0, time 0.000 |
| `Channel.LineAt` | p3270/p3270.py:56-56 | what `readline()` gives: the next line, or `""` at end of stream; `Channel.Pipe.ReadLine` states the same of the pipe |
| `Channel.Chomp` | p3270/p3270.py:56-56 | `rstrip('\n').rstrip('\r')`; its properties are stated by `Channel.ChompLine` |
| `Channel.IsData` | p3270/p3270.py:57-57 | `startswith('data:')`; `Channel.DataCountIsRun` and `Channel.RunAt` state it marks exactly the run of data lines |
| `Channel.ChompLine` | p3270/p3270.py:56-56 | `rstrip('\n').rstrip('\r')` keeps a prefix of the line that does not end in a carriage return; a line without a line end is kept whole, and one newline after the last character is removed |
| `Channel.Payload` | p3270/p3270.py:59-59 | `line[6:]`: what follows the first six characters, and nothing for a shorter line |
| `Channel.DataCount` | p3270/p3270.py:57-73 | a non-empty run of data lines lies inside the stream |
| `Channel.Respond` | p3270/p3270.py:56-82 | the status read is never a data line, at least two lines are read, and the buffer changes only to a new value made from at least one data line |
| `Channel.DataCountIsRun` | p3270/p3270.py:56-73 | the data run counted by `DataCount` is exactly the run: every line in it has the `data:` prefix, the next line does not, and a non-empty run stays inside the stream |
| `Channel.RunAt` | p3270/p3270.py:62-73 | the k-th line of a run is a data line exactly while k is inside the run |
| `Channel.Pipe.constructor` | p3270/p3270.py:28-31 | a fresh pipe has the emulator's output lines, has read nothing and has been sent nothing |
| `Channel.Pipe.ReadLine` | p3270/p3270.py:56-56 | one readline: the line at the cursor, or "" past the end, and the cursor moves on by one |
| `Channel.Pipe.Write` | p3270/p3270.py:40-41 | the data is appended to what the emulator has been sent |
| `Channel.S3270.constructor` | p3270/p3270.py:24-33 | the arguments, encoding and pipe are kept; no buffer and no status yet |
| `Channel.S3270.Check` | p3270/p3270.py:46-82 | with doNotCheck nothing is read and the answer is True; otherwise cursor, buffer and status are those of `Respond`, and the answer is True exactly when the result line is `ok` |
| `Channel.S3270.ReadData` | p3270/p3270.py:56-73 | reads the data run and the status line: cursor after them, buffer and status as `Respond` says |
| `Channel.S3270.ReadMoreData` | p3270/p3270.py:61-73 | the loop: every further data line's payload is appended after a newline, ending at the first non-data line, which is the status |
| `Channel.S3270.Sent` | p3270/p3270.py:35-44 | the whole effect of `do(c)`: the line and newline written, `cmd` set, and cursor, buffer and status as `Channel.Respond` gives them (unchanged for Quit) |
| `Channel.S3270.Performed` | p3270/p3270.py:35-44 | `Sent(c)` plus the answer: True for Quit, otherwise True exactly when the result line is `ok` |
| `Channel.S3270.Do` | p3270/p3270.py:35-44 | writes exactly the command and a newline and sets `cmd`; for Quit nothing is read and the answer is True; otherwise the response is read as `Check` says |
| `Channel.RespondWithoutData` | p3270/p3270.py:56-58 | with no data line the first line is the status, exactly two lines are read, and the buffer keeps its previous value |
| `Channel.RespondWithData` | p3270/p3270.py:59-75 | with N >= 1 data lines the buffer is their `[6:]` payloads joined by newlines in arrival order, the status is the next line, and N + 2 lines are read |
| `Channel.RespondAtEnd` | p3270/p3270.py:56-82 | at end of stream the status and result read as "": the status is invalid, the answer is False, the buffer is untouched |
| `Channel.BufferLinesArePayloads` | p3270/p3270.py:59-73 | the lines of the buffer are the payloads of the data lines, one per line |
| `Channel.ValidResponse` | p3270/test/test_p3270.py:14-15 | a bare status line and `ok`: success, buffer untouched, status of a connected model 2 session |
| `Channel.DisconnectedResponse` | p3270/test/test_p3270.py:227-233 | the not-connected NoOpCommand answer: buffer `Unknown action: NoOpCommand`, connection state False, result `error` |
| `Channel.InvalidResponse` | p3270/test/test_p3270.py:260-275 | an empty line then end of stream: invalid status, failure, buffer untouched |
| `Configuration.EncodingFor` | p3270/p3270.py:654-654 | the encoding is one of latin1, latin2, latin5, latin7, latin8, latin9 and koi8-r, and only a single-byte page gets one other than latin1 |
| `Configuration.Failures` | p3270/p3270.py:637-663 | at most six reports, each of an attribute that fails its check |
| `Configuration.FailureNames` | p3270/p3270.py:637-663 | one name per failed check, each one of the six attribute names |
| `Configuration.EncodingTable` | p3270/p3270.py:487-523 | every page in the encoding table is single-byte; double-byte pages and the unlisted pages (cp803, cp1149, cp1160, apl, bracket) get latin1 |
| `Configuration.FailuresMembers` | p3270/p3270.py:637-663 | an attribute is reported exactly when its check fails |
| `Configuration.FailuresDistinct` | p3270/p3270.py:637-663 | no attribute is reported twice |
| `Configuration.FailuresEmpty` | p3270/p3270.py:596-612 | nothing is reported exactly when every check passes |
| `Configuration.FailureNamesReport` | p3270/p3270.py:646-663 | a name is in `invalidAttributes` exactly when that attribute's check failed |
| `Configuration.ModelReported` | p3270/p3270.py:646-647 | modelName is reported exactly when the model is not one of the eight valid ones |
| `Configuration.PortReported` | p3270/p3270.py:648-649 | hostPort is reported exactly when the port is outside 1..65535 |
| `Configuration.CodePageReported` | p3270/p3270.py:650-652 | codePage is reported exactly when it is set and in neither the DBCS nor the SBCS table |
| `Configuration.ScreensDirReported` | p3270/p3270.py:655-657 | screensDir is reported exactly when it is set and the directory does not exist |
| `Configuration.SwitchesReported` | p3270/p3270.py:658-663 | verifyCert and enableTLS are each reported exactly when set to something other than yes or no |
| `Configuration.DefaultsPass` | p3270/p3270.py:578-580 | the declared defaults parse the port as 23 and pass every check |
| `Configuration.Config.IsValid` | p3270/p3270.py:665-666 | `isValid()`; `Configuration.NewConfig` states it holds exactly when no check reported its attribute |
| `Configuration.Config.constructor` | p3270/p3270.py:578-592 | the attributes are kept and the list of invalid attributes starts empty |
| `Configuration.Config.ValidateAttributes` | p3270/p3270.py:637-663 | appends the names of exactly the failed checks in check order, and sets the encoding when the code page is set and known; a non-numeric port raises ValueError after the model check only |
| `Configuration.Config.CheckModel` | p3270/p3270.py:646-647 | appends modelName when the model is not valid, nothing otherwise |
| `Configuration.Config.CheckPort` | p3270/p3270.py:648-649 | appends hostPort when the port is outside 1..65535 |
| `Configuration.Config.CheckCodePage` | p3270/p3270.py:650-654 | appends codePage for an unknown set page; a known one sets the encoding |
| `Configuration.Config.CheckScreensDir` | p3270/p3270.py:655-657 | appends screensDir when it is set and does not exist |
| `Configuration.Config.CheckSwitches` | p3270/p3270.py:658-663 | appends verifyCert, then enableTLS, for each that is set and neither yes nor no |
| `Configuration.NewConfig` | p3270/p3270.py:578-612 | ValueError exactly when `int()` rejects the port; otherwise the list is the failed checks, valid exactly when it is empty, and the encoding is set only by a known code page |
| `Commands.ParseCall` | p3270/p3270.py:40-40 | a model of how s3270 reads the line written: the name before the first parenthesis, then the arguments up to the closing one, split at commas with leading blanks trimmed |
| `Commands.CallRoundTrip` | p3270/p3270.py:40-40 | a line written as `Name(a, b, ...)` with arguments free of commas and leading blanks reads back as exactly that name and those arguments |
| `Commands.ConnectCommand` | p3270/p3270.py:138-150 | the line starts `Connect(L:` exactly when enableTLS is yes, `Connect(B:` otherwise, and ends with `)` |
| `Commands.PFCommand` | p3270/p3270.py:170-180 | a line exactly for an int in 1..24, read back as `PF` with that number's digits |
| `Commands.PACommand` | p3270/p3270.py:182-192 | a line exactly for an int in 1..3, read back as `PA` with that number's digits |
| `Commands.PFReadsBack` | p3270/p3270.py:170-180 | the number a PF line carries is in 1..24 and `int()` reads it back as the key asked for |
| `Commands.PAReadsBack` | p3270/p3270.py:182-192 | the number a PA line carries is in 1..3 and `int()` reads it back as the key asked for |
| `Commands.PFInjective` | p3270/p3270.py:175-177 | different PF keys give different lines |
| `Commands.MoveToCommand` | p3270/p3270.py:290-297 | the line reads back as `MoveCursor` with the digits of row - 1 and col - 1 |
| `Commands.MoveToReadsBack` | p3270/p3270.py:290-297 | moveTo sends exactly row - 1 and col - 1, whatever their sign |
| `Commands.MoveToInjective` | p3270/p3270.py:294-297 | different positions give different lines |
| `Commands.KeyCommand` | p3270/p3270.py:218-233 | nothing exactly for no keys; Enter, Tab and BackSpace exactly for a first key that is newline, tab or backspace |
| `Commands.KeyFirstOnly` | p3270/p3270.py:225-233 | only the first key is ever sent |
| `Commands.KeyReadsBack` | p3270/p3270.py:233-233 | any other first key is sent as `Key(k)`; the emulator reads it back as the key itself, except a comma (two empty arguments) and a blank (one empty argument) |
| `Commands.TextCommand` | p3270/p3270.py:305-309 | by construction, the line is the text between `String("` and `")`, unchanged and unescaped: a `"` in the text is sent as it is |
| `Commands.PathJoin` | p3270/p3270.py:315-316 | `os.path.join` on POSIX: the name ends the result; a relative name keeps the directory in front; an absolute name is the result |
| `Commands.ScreenFile` | p3270/p3270.py:315-316 | the file name ends the path written to, and an empty name stays empty |
| `Commands.SaveScreenCommand` | p3270/p3270.py:311-325 | a line exactly for the types html, rtf and txt |
| `Commands.SaveScreenTypes` | p3270/p3270.py:311-325 | the line reads back as `PrintText` with the type (file for txt) and then the file; the file reads back as itself exactly when it holds no comma and no leading blank, otherwise as its comma-separated pieces |
| `Commands.SaveScreenDefaults` | p3270/p3270.py:311-311 | `saveScreen()` with its defaults and no screens directory sends `PrintText(html, screen)` |
| `Commands.ScreenFileInDirectory` | p3270/p3270.py:315-316 | a relative file name goes into the screens directory behind one slash |
| `Commands.ReadTextCommand` | p3270/p3270.py:360-368 | the line reads back as `Ascii` with the digits of row - 1, col - 1 and the length |
| `Commands.ReadTextReadsBack` | p3270/p3270.py:360-368 | readTextAtPosition sends the 0-based position and the length |
| `Commands.ReadAreaCommand` | p3270/p3270.py:370-381 | the line reads back as `Ascii` with the digits of row - 1, col - 1, the rows and the columns |
| `Commands.ReadAreaReadsBack` | p3270/p3270.py:378-381 | readTextArea sends the 0-based position, the rows and the columns |
| `Commands.WaitCommand` | p3270/p3270.py:400-476 | every wait line reads back as a `Wait` action |
| `Commands.WaitReadsBack` | p3270/p3270.py:400-476 | for every condition the timeout reads back first, then the keyword and positions unchanged; the text of stringAt reads back as itself exactly when it has no comma and no leading blank, and as its comma-separated pieces otherwise |
| `Commands.ConnectReadsBack` | p3270/p3270.py:138-150 | the connect line names the host, behind `lu@` when an LU name is set |
| `Commands.KeyExamples` | p3270/test/test_p3270.py:91-111 | PF(7) and PA(3) are sent; PF 37, -3 and non-integers and PA 5, -3 and non-integers send nothing |
| `Commands.MoveToExamples` | p3270/test/test_p3270.py:179-190 | moveTo(5, 20) sends `MoveCursor(4, 19)` and moveTo(-10, -10) sends `MoveCursor(-11, -11)` |
| `Commands.ConnectExamples` | p3270/test/test_p3270.py:50-60 | the two sample configurations connect with `Connect(B:LU01QSWJ@localhost)` and `Connect(L:LU01QSWJ@localhost)` |
| `Commands.TextAndScreenExamples` | p3270/test/test_p3270.py:198-219 | `String("CEMT I TASK")`, `PrintText(html, dir/myscreen.html)`, `PrintText(rtf, dir/myscreen.rtf)`, and nothing for pdf |
| `Client.Executable` | p3270/p3270.py:119-121 | the first argument: s3270, or the path followed by s3270; its properties are stated by `Client.ExecutablePath` |
| `Client.ExecutablePath` | p3270/p3270.py:119-121 | the executable ends in s3270, behind the whole path when one is given |
| `Client.ArgList` | p3270/p3270.py:116-136 | the list starts with the executable and is only that when the configuration is not valid |
| `Client.MakeArgs` | p3270/p3270.py:116-136 | the appends build exactly `ArgList` of the configuration |
| `Client.ArgListShape` | p3270/p3270.py:123-134 | a valid configuration gives executable, -model, model, -port, port, then -charset and the page, then -trace -tracefile and the file, each when set |
| `Client.NoVerifyCertFlag` | p3270/p3270.py:135-136 | -noverifycert is passed exactly when the configuration is valid and verifyCert is no |
| `Client.P3270Client.constructor` | p3270/p3270.py:102-110 | the configuration, channel, path, timeout and arguments are kept |
| `Client.P3270Client.Connect` | p3270/p3270.py:138-150 | performs the connect line of the configuration's host, LU name and TLS switch |
| `Client.P3270Client.Disconnect` | p3270/p3270.py:152-156 | performs `Disconnect` |
| `Client.P3270Client.EndSession` | p3270/p3270.py:158-162 | performs `Quit`, reads nothing and answers True |
| `Client.P3270Client.SendEnter` | p3270/p3270.py:164-168 | performs `Enter` |
| `Client.P3270Client.SendPF` | p3270/p3270.py:170-180 | performs `PF(n)` for an int in 1..24; otherwise answers False and nothing is written or read |
| `Client.P3270Client.SendPA` | p3270/p3270.py:182-192 | performs `PA(n)` for an int in 1..3; otherwise answers False and nothing is written or read |
| `Client.P3270Client.SendBackSpace` | p3270/p3270.py:194-198 | performs `BackSpace` |
| `Client.P3270Client.SendBackTab` | p3270/p3270.py:200-204 | performs `BackTab` |
| `Client.P3270Client.SendHome` | p3270/p3270.py:206-210 | performs `Home` |
| `Client.P3270Client.SendTab` | p3270/p3270.py:212-216 | performs `Tab` |
| `Client.P3270Client.SendKeys` | p3270/p3270.py:218-233 | performs the line of the first key only; no keys gives None and touches nothing |
| `Client.P3270Client.ClearScreen` | p3270/p3270.py:235-240 | performs `Clear` |
| `Client.P3270Client.DelChar` | p3270/p3270.py:242-246 | performs `Delete` |
| `Client.P3270Client.DelField` | p3270/p3270.py:248-252 | performs `DeleteField` |
| `Client.P3270Client.DelWord` | p3270/p3270.py:254-258 | performs `DeleteWord` |
| `Client.P3270Client.EraseChar` | p3270/p3270.py:260-264 | performs `Erase` |
| `Client.P3270Client.MoveCursorDown` | p3270/p3270.py:266-270 | performs `Down` |
| `Client.P3270Client.MoveCursorUp` | p3270/p3270.py:272-276 | performs `Up` |
| `Client.P3270Client.MoveCursorLeft` | p3270/p3270.py:278-282 | performs `Left` |
| `Client.P3270Client.MoveCursorRight` | p3270/p3270.py:284-288 | performs `Right` |
| `Client.P3270Client.MoveTo` | p3270/p3270.py:290-297 | performs the 0-based `MoveCursor` line |
| `Client.P3270Client.MoveToFirstInputField` | p3270/p3270.py:299-303 | performs `Home` |
| `Client.P3270Client.SendText` | p3270/p3270.py:305-309 | performs the `String` line of the text |
| `Client.P3270Client.SaveDefaultScreen` | p3270/p3270.py:311-325 | `saveScreen()`: performs the line for file screen and type html |
| `Client.P3270Client.SaveScreen` | p3270/p3270.py:311-325 | performs the `PrintText` line for html, rtf and txt; any other type answers False and touches nothing |
| `Client.P3270Client.GetScreen` | p3270/p3270.py:327-332 | sends `PrintText(string)` and returns the buffer after the response |
| `Client.P3270Client.IsConnected` | p3270/p3270.py:353-358 | sends `NoOpCommand` and returns the connection state of the status line it brings back |
| `Client.P3270Client.ReadTextAtPosition` | p3270/p3270.py:360-368 | sends the 0-based `Ascii` line and returns the buffer after the response |
| `Client.P3270Client.ReadTextArea` | p3270/p3270.py:370-386 | raises before writing unless all four arguments are at least 1; otherwise the buffer, split into lines when more than one row was read (AttributeError when there is no buffer) |
| `Client.P3270Client.FoundTextAtPosition` | p3270/p3270.py:388-390 | reads len(text) characters there and answers True exactly when the buffer is the text |
| `Client.P3270Client.ClearFieldAt` | p3270/p3270.py:394-395 | writes the MoveCursor line and then `DeleteField` |
| `Client.P3270Client.TrySendTextToField` | p3270/p3270.py:393-398 | writes MoveCursor, DeleteField, String and Ascii in that order, and answers True exactly when the buffer read back is the text |
| `Client.P3270Client.WaitFor` | p3270/p3270.py:400-476 | performs the `Wait` line with the client's timeout and the condition |
| `Client.P3270Client.WaitFor3270Mode` | p3270/p3270.py:400-404 | performs `Wait(timeout, 3270mode)` |
| `Client.P3270Client.WaitForCursorAt` | p3270/p3270.py:406-410 | performs `Wait(timeout, cursorAt, row, col)` with the 1-based position unchanged |
| `Client.P3270Client.WaitForCursorAtOffset` | p3270/p3270.py:412-416 | performs `Wait(timeout, cursorAt, offset)` |
| `Client.P3270Client.WaitForDisconnect` | p3270/p3270.py:418-422 | performs `Wait(timeout, disconnect)` |
| `Client.P3270Client.WaitForField` | p3270/p3270.py:424-428 | performs `Wait(timeout, inputField)` |
| `Client.P3270Client.WaitForFieldAt` | p3270/p3270.py:430-434 | performs `Wait(timeout, inputFieldAt, row, col)` |
| `Client.P3270Client.WaitForFieldAtOffset` | p3270/p3270.py:436-440 | performs `Wait(timeout, inputFieldAt, offset)` |
| `Client.P3270Client.WaitForNVTMode` | p3270/p3270.py:442-446 | performs `Wait(timeout, nvtmode)` |
| `Client.P3270Client.WaitForOutput` | p3270/p3270.py:448-452 | performs `Wait(timeout, output)` |
| `Client.P3270Client.WaitForTimeout` | p3270/p3270.py:454-458 | performs `Wait(timeout, seconds)` |
| `Client.P3270Client.WaitForStringAt` | p3270/p3270.py:460-464 | performs `Wait(timeout, stringAt, row, col, text)` |
| `Client.P3270Client.WaitForStringAtOffset` | p3270/p3270.py:466-470 | performs `Wait(timeout, stringAt, offset, text)` |
| `Client.P3270Client.WaitForUnlock` | p3270/p3270.py:472-476 | performs `Wait(timeout, unlock)` |
| `Client.Open` | p3270/p3270.py:105-113 | ValueError for a non-numeric port, InvalidConfiguration when a check fails, AttributeError when no encoding was set; otherwise a valid configuration, the `makeArgs` list, and a channel that has read and written nothing |
| `Client.NewClient` | p3270/p3270.py:92-114 | the client constructor as written: the configuration keeps verifyCert yes and enableTLS no whatever was passed |
| `Client.NewDefaultClient` | p3270/p3270.py:92-114 | `P3270Client()` with every default opens, with the default configuration, the arguments `s3270 -model 3279-2 -port 23 -charset cp037`, encoding latin1 and timeout 20 |
| `Client.ClientIgnoresTlsParameters` | p3270/p3270.py:105-106 | with the attributes the constructor passes, a client always connects with B: and never passes -noverifycert |
| `Client.NewClientCorrected` | p3270/p3270.py:92-114 | with verifyCert and enableTLS passed on, both are validated, -noverifycert is passed exactly when verifyCert is no, and connect uses L: exactly when enableTLS is yes |

## Left out

- Processes and pipes. `subprocess.Popen` is not modelled. The emulator is a `Pipe` holding the lines it will print. The stdin flush is part of `Write`, and stderr is never read.
- Byte encoding. `encode`/`decode` are not modelled: lines and commands are strings. So an encoding error on a character outside the configured encoding is not modelled. The Quit test compares the encoded line with `b'Quit\n'`; the model compares strings, which is the same for the ASCII-compatible encodings of the lookup table.
- Logging. Every `logger` call is left out, including the error-logging loop of `Config.__init__` (p3270/p3270.py:598-610). It changes nothing.
- `Config.readConfig` and the `configFile` parameter: they read a file.
- `os.path.isdir` is the `dirExists` parameter. `os.path.join` is modelled with its POSIX meaning for two parts.
- `printScreen` and `printConfig`: they print to stdout.
- Instance counters. `numOfInstances` and the client's `_isValid` and `subpro = None` attributes are left out: no operation reads them.
- `Text.ParseInt`: `int()` is modelled on an optional sign and ASCII digits only. The surrounding whitespace, underscores and non-ASCII digits that Python also accepts are left out. Any other text is the ValueError outcome.
- `Commands.PFCommand`: a Python bool passes `isinstance(n, int)`, so `sendPF(True)` sends `PF(True)`. The model's argument is only an integer or a non-integer, and this case is left out. The same holds for `Commands.PACommand`.
- Exceptions are modelled as `Err` results named after the exception:
  - `ValueError`: a port or status field that `int()` rejects;
  - `InvalidConfiguration`;
  - `AttributeError`: no encoding set, or no buffer to split into lines;
  - `Exception`: `readTextArea` arguments below 1.
- `Configuration.Config.ValidateAttributes` is split into one method per check. The order of checks and of appended names is that of the source.
- `Client.P3270Client.TrySendTextToField`: besides the four lines, its contract states only the final `cmd` and the answer. The cursor, buffer and status left by the four responses are not stated.
- `Client.P3270Client.ClearFieldAt`: its contract states only the two lines written, not the cursor, buffer and status left by the two responses.
- `Commands.ParseCall`: this is a model of how s3270 splits an action's arguments, assumed rather than taken from the emulator: split at commas, then leading blanks trimmed. It does not cover s3270's own grammar for whitespace, quotes, or `)` inside an argument. Every `...ReadsBack` lemma holds for this model of the emulator.
- `Commands.KeyReadsBack`: what the emulator reads a key as comes from that model (`Commands.Arguments`).
- `Commands.TextCommand`: the client quotes only in `sendText`, which writes `String("...")`. It has no read-back lemma, because the model of the emulator's splitting does not cover quoted strings.
- `Commands.WaitReadsBack`: the same model of the emulator's argument splitting holds for the text of `stringAt`, and for the file name in `Commands.SaveScreenTypes`.
- Default arguments: `sendPF`, `sendPA` and the other operations have none. The defaults of `P3270Client()` and `saveScreen()` are modelled as constants, with `Client.NewDefaultClient` and `Client.P3270Client.SaveDefaultScreen` as the calls that use them all. A call that sets some arguments and leaves the rest at their defaults is `Client.NewClient` with those constants passed.
- `Client.P3270Client.GetScreen`: like `ReadTextAtPosition` and `IsConnected`, it discards the command's answer, as the source does. Its contract states the effect (`Sent`) without the answer.

## Findings

| source | as written | input that shows it | evidently intended | confidence | as-written member | corrected member |
|---|---|---|---|---|---|---|
| p3270/p3270.py:105-106 | the client constructor stores `verifyCert` and `enableTLS` but does not pass them to `Config`, so the configuration keeps `yes` and `no` | `P3270Client(enableTLS='yes', verifyCert='no')` connects with `Connect(B:...)` and starts s3270 without `-noverifycert` | pass both to `Config`, so that they are validated and take effect | not executed | `Client.NewClient`, `Client.ClientIgnoresTlsParameters` | `Client.NewClientCorrected` |
