# A verified model of the ClearCaptions captioning client core

The ClearCaptions client places a telephone call through a captioning relay.
A TCP or WebSocket session carries `myMethod=Name||key=value||…` packets to
and from the relay. An optional SIP leg carries the call's audio. This
project models in Dafny the logic at the centre of that client and proves
what each part promises:

- **Wire and text** (`wire.dfy`, `java_text.dfy`, `wrappers.dfy`). These cover the
  `(byte)char` narrowing and the NUL-terminated packet copy. They also cover the
  `java.lang.String` and `Integer` operations the parser relies on:
  case-insensitive `indexOf`, the value that runs to the next `||`, `parseInt`
  with its 32-bit range, `split`, `trim` and Java's 32-bit wrap-around.
- **Packet builders** (`commands.dfy`). Each outbound command is a list of
  fields, and its text is that list rendered. The rendering reads back to the
  command.
- **Socket buffers** (`write_thread.dfy`, `read_thread.dfy`). The writer's
  append-only byte queue is drained copy-then-send. The reader's NUL-split
  FIFO of packets is modelled too.
- **The protocol wizard** (`session_spec.dfy`, `session_facts.dfy`,
  `protocol_wizard.dfy`). `Session` holds the whole state machine as pure
  functions of the wizard's variables. Everything the wizard does outside
  itself is appended to an event log. `ProtocolWizard` is the class whose
  methods update those variables in place, each proved to end in the state
  its `Session` function computes. `SessionFacts` proves the behaviour the
  protocol depends on: the inbound dispatcher, registration, polling, the
  reconnect funnel and the backoff bound.
- **Call policy** (`captions.dfy`, `call_type.dfy`, `caption_state.dfy`). This
  covers the one-call-at-a-time guard, test calls against real calls, the
  fall-through routing of session states to the application, and the VoIP
  call-type test.
- **SIP bridge** (`sip_manager.dfy`, `sip_handler.dfy`). The SIP manager is a
  state machine driven by response codes. The SIP handler splits the URI,
  sends the INVITE at most once and maps SIP states to caption states.
- **Vendored JAIN-SIP logic** (`sip_dialog.dfy`, `status_line.dfy`).
  - The dialog's sequence-number, route-set, state and 2xx-retransmission
    rules, as sections 12, 12.1.1, 12.1.2, 12.3 and 13.3.1.4 of RFC 3261
    describe them.
  - Status-Line encoding and matching, as section 7.2 of RFC 3261 describes
    them.

Each stateful component has two modules. A `…Spec` module (or `Session`)
gives the state as a datatype with one function per operation and the
lemmas about them. A class beside it keeps the source's fields, and each of
its methods ensures `Snap() == Spec.Op(old(Snap()), …)`.

## Model

| member | source | states |
|---|---|---|
| CallType.IsVoipCallType | mylibrary/src/main/java/com/clearcaptions/javawi/jstun/util/CallTypeUtil.java:9-18 | a call type is VoIP exactly when it is one of "71", "171", "271" (plain set membership, no parsing) |
| CallType.LookAlikesAreNotVoip | mylibrary/src/main/java/com/clearcaptions/javawi/jstun/util/CallTypeUtil.java:15-18 | strings that only resemble a VoIP type ("70", "371", "071", " 71", "71 ", "") are not VoIP |
| Writer.Joined | mylibrary/src/main/java/com/clearcaptions/transport/network/WriteThread.java:32-53 | the two copy loops of write() build a fresh array holding the old queue (null as empty) followed by the data |
| Writer.WriteThread.constructor | mylibrary/src/main/java/com/clearcaptions/transport/network/WriteThread.java:18-25 | a new writer has no queue, no buffer, no stream and is running |
| Writer.WriteThread.SetOutputStream | mylibrary/src/main/java/com/clearcaptions/transport/network/WriteThread.java:27-30 | only the stream field changes |
| Writer.WriteThread.Write | mylibrary/src/main/java/com/clearcaptions/transport/network/WriteThread.java:32-54 | the queue becomes a fresh array: the old queue then the data; nothing else changes |
| Writer.WriteThread.CopyQueue | mylibrary/src/main/java/com/clearcaptions/transport/network/WriteThread.java:56-60 | the buffer takes the queue and the queue becomes null |
| Writer.WriteThread.QueueSize | mylibrary/src/main/java/com/clearcaptions/transport/network/WriteThread.java:62-68 | the length of the queue, 0 exactly when it is null or empty; nothing changes |
| Writer.WriteThread.Send | mylibrary/src/main/java/com/clearcaptions/transport/network/WriteThread.java:70-85 | a null stream or buffer throws before writing; an IO failure clears queue, buffer and stream; otherwise the buffer is appended to what the stream accepted and dropped |
| Writer.WriteThread.Done | mylibrary/src/main/java/com/clearcaptions/transport/network/WriteThread.java:131-133 | done() is the negation of run |
| Writer.WriteThread.Quit | mylibrary/src/main/java/com/clearcaptions/transport/network/WriteThread.java:135-137 | only run is cleared |
| Writer.WriteThread.RunStep | mylibrary/src/main/java/com/clearcaptions/transport/network/WriteThread.java:89-125 | one loop pass: copy, then send when stream and buffer exist (a failure ends the loop with CONNECTION_LOST and the IO message), else CALL_ENDED and quit when done, else sleep |
| Writer.ApplyConserves | mylibrary/src/main/java/com/clearcaptions/transport/network/WriteThread.java:32-85 | one write, copy over an empty buffer, successful send or quit keeps sent-then-pending bytes equal to before plus what was written |
| Writer.Conservation | mylibrary/src/main/java/com/clearcaptions/transport/network/WriteThread.java:32-85 | along any trace that never copies over an unsent buffer and never fails a send, no byte is lost, reordered or duplicated |
| Writer.SentGrows | mylibrary/src/main/java/com/clearcaptions/transport/network/WriteThread.java:70-85 | what the streams accepted only grows, by appending, along any trace |
| Writer.QuitIsFinal | mylibrary/src/main/java/com/clearcaptions/transport/network/WriteThread.java:131-137 | no operation sets run again: once quit, the writer stays done |
| Writer.CopyDiscardsUnsentBuffer | mylibrary/src/main/java/com/clearcaptions/transport/network/WriteThread.java:56-60 | copyQueue over a non-empty unsent buffer (kept while the stream is null, 92) loses bytes |
| Reader.NonEmpty | mylibrary/src/main/java/com/clearcaptions/transport/network/ReadThread.java:74-78 | exactly the non-empty pieces are kept: each kept piece is a non-empty piece, every non-empty piece is kept, and there are never more of them |
| Reader.FramesWellFormed | mylibrary/src/main/java/com/clearcaptions/transport/network/ReadThread.java:69-84 | every packet insert() adds is non-empty and holds no NUL |
| Reader.TrimKeeps | mylibrary/src/main/java/com/clearcaptions/transport/network/ReadThread.java:72 | trim() leaves text alone that starts and ends above U+0020 |
| Reader.TwoFramesInOneBlock | mylibrary/src/main/java/com/clearcaptions/transport/network/ReadThread.java:72-78 | two NUL-separated packets in one block arrive as exactly those two packets, in order |
| Reader.ReadThread.constructor | mylibrary/src/main/java/com/clearcaptions/transport/network/ReadThread.java:18-24 | a new reader has no stream, runs and holds no packets |
| Reader.ReadThread.Done | mylibrary/src/main/java/com/clearcaptions/transport/network/ReadThread.java:61-63 | done exactly when there is no stream or run is false |
| Reader.ReadThread.Quit | mylibrary/src/main/java/com/clearcaptions/transport/network/ReadThread.java:65-67 | only run is cleared |
| Reader.ReadThread.Insert | mylibrary/src/main/java/com/clearcaptions/transport/network/ReadThread.java:69-84 | the packets of the whole decoded, trimmed, NUL-split buffer are appended, whatever size says; the list stays well formed |
| Reader.ReadThread.AddPieces | mylibrary/src/main/java/com/clearcaptions/transport/network/ReadThread.java:74-78 | the loop appends exactly the non-empty pieces, in order |
| Reader.ReadThread.RunStep | mylibrary/src/main/java/com/clearcaptions/transport/network/ReadThread.java:30-43 | a read block is inserted; an end of stream reports CONNECTION_LOST and leaves the loop running |
| Reader.ReadThread.SetInputStream | mylibrary/src/main/java/com/clearcaptions/transport/network/ReadThread.java:86-99 | the old stream is closed exactly when null is set over a stream while the writer's queue is empty; the field is replaced either way |
| Reader.ReadThread.Available | mylibrary/src/main/java/com/clearcaptions/transport/network/ReadThread.java:101-104 | the number of waiting packets |
| Reader.ReadThread.Read | mylibrary/src/main/java/com/clearcaptions/transport/network/ReadThread.java:106-108 | removes and returns the oldest packet; an empty list throws and changes nothing |
| Reader.NonEmptyAppend | mylibrary/src/main/java/com/clearcaptions/transport/network/ReadThread.java:74-78 | filtering distributes over concatenation (the loop's invariant step) |
| Wire.Encode | mylibrary/src/main/java/com/clearcaptions/transport/protocol/ProtocolWizard.java:1746-1748 | the narrowing keeps the length and maps each character to its low eight bits |
| Wire.Decode | mylibrary/src/main/java/com/clearcaptions/transport/protocol/ProtocolWizard.java:2241 | decoding keeps the length; an ASCII byte is its own character, any other byte U+FFFD |
| Wire.DecodeEncode | mylibrary/src/main/java/com/clearcaptions/transport/protocol/ProtocolWizard.java:1746-1748 | ASCII command text survives the narrowing and decoding unchanged |
| Wire.PacketShape | mylibrary/src/main/java/com/clearcaptions/transport/protocol/ProtocolWizard.java:1744-1749 | a packet is one byte longer than its command text and ends in 0; that 0 is its only zero byte exactly when no character narrows to 0 |
| Wire.PacketText | mylibrary/src/main/java/com/clearcaptions/transport/protocol/ProtocolWizard.java:2241 | the text of an ASCII packet is its command string followed by NUL |
| Wire.BuildPacket | mylibrary/src/main/java/com/clearcaptions/transport/protocol/ProtocolWizard.java:1744-1751 | the builders' copy loop yields a fresh array equal to the packet of the command string |
| Commands.Pairs | mylibrary/src/main/java/com/clearcaptions/transport/protocol/ProtocolWizard.java:1730-2158 | the read-back view of a field list has one pair per field |
| Commands.FirstChar | mylibrary/src/main/java/com/clearcaptions/transport/protocol/ProtocolWizard.java:1730-2158 | the first occurrence of a separator character, or the end (used to read commands back) |
| Commands.ParseRenderFields | mylibrary/src/main/java/com/clearcaptions/transport/protocol/ProtocolWizard.java:1730-2158 | the `\|\|key=value` fields every builder appends read back to exactly those fields when no value holds `\|` |
| Commands.ParseRender | mylibrary/src/main/java/com/clearcaptions/transport/protocol/ProtocolWizard.java:1730-2158 | a whole `myMethod=<name>` command reads back to its name and fields |
| Commands.GoodKeys | mylibrary/src/main/java/com/clearcaptions/transport/protocol/ProtocolWizard.java:1730-2158 | no key the builders use holds `\|` or `=` |
| Commands.ReadableCommand | mylibrary/src/main/java/com/clearcaptions/transport/protocol/ProtocolWizard.java:1730-2158 | every builder's method name and fields are readable when the profile values and free-text arguments hold no `\|` |
| Commands.CommandReadsBack | mylibrary/src/main/java/com/clearcaptions/transport/protocol/ProtocolWizard.java:1730-2158 | every one of the 22 commands reads back to its method name and its fields; the registration request after dropping its closing `\|\|` |
| Commands.TextIsRendering | mylibrary/src/main/java/com/clearcaptions/transport/protocol/ProtocolWizard.java:1858-1879 | each command text is its rendering; only the registration request adds a trailing `\|\|` |
| Commands.RegisterCallGroup | mylibrary/src/main/java/com/clearcaptions/transport/protocol/ProtocolWizard.java:1865-1868 | the registration request ends with `\|\|` and carries a callGroup field, last, exactly when the profile's callGroup is non-empty |
| Commands.RenderFieldsAppend | mylibrary/src/main/java/com/clearcaptions/transport/protocol/ProtocolWizard.java:1730-2158 | rendering distributes over concatenating field lists |
| Commands.RenderPrefix | mylibrary/src/main/java/com/clearcaptions/transport/protocol/ProtocolWizard.java:1903-1959 | a command's rendering starts with the rendering of any prefix of its fields |
| Commands.StartRelayBegins | mylibrary/src/main/java/com/clearcaptions/transport/protocol/ProtocolWizard.java:1903-1959 | both StartRelay builders begin with `myMethod=StartRelay\|\|myID=<session>` |
| Commands.AnswerTokenChoice | mylibrary/src/main/java/com/clearcaptions/transport/protocol/ProtocolWizard.java:2063-2106 | the answer's deviceID is the override token when it is non-empty, else the push token; ignore always sends the push token |
| Commands.PollText | mylibrary/src/main/java/com/clearcaptions/transport/protocol/ProtocolWizard.java:1616-1638 | the poll request is `myMethod=PollData\|\|myID=<session>` then `\|\|firstPoll=1` and `\|\|firstOpContact=1` when those flags are set |
| Commands.PollFields | mylibrary/src/main/java/com/clearcaptions/transport/protocol/ProtocolWizard.java:1626-1638 | the poll text as the method name followed by its rendered fields |
| Commands.PollRenderFields | mylibrary/src/main/java/com/clearcaptions/transport/protocol/ProtocolWizard.java:1626-1638 | the poll's fields render to the session field and the two optional flags |
| Commands.RenderOne | mylibrary/src/main/java/com/clearcaptions/transport/protocol/ProtocolWizard.java:1626 | a single field renders as `\|\|key=value` |
| Commands.FlagText | mylibrary/src/main/java/com/clearcaptions/transport/protocol/ProtocolWizard.java:1628-1637 | a flag field renders as `\|\|key=1` when set and as nothing otherwise |
| JavaText.Upper | mylibrary/src/main/java/com/clearcaptions/transport/protocol/ProtocolWizard.java:1001 | toUpperCase keeps the length and upper-cases each ASCII letter in place |
| JavaText.IndexFrom | mylibrary/src/main/java/com/clearcaptions/transport/protocol/ProtocolWizard.java:1011 | indexOf from a start index returns -1 or an index at or after the start where the text fits |
| JavaText.IndexFromFirst | mylibrary/src/main/java/com/clearcaptions/transport/protocol/ProtocolWizard.java:1011 | indexOf from a start index finds the first occurrence at or after it, and -1 means none |
| JavaText.IndexOf | mylibrary/src/main/java/com/clearcaptions/transport/protocol/ProtocolWizard.java:1011 | indexOf returns -1 or an index where the text fits |
| JavaText.IndexOfFirst | mylibrary/src/main/java/com/clearcaptions/transport/protocol/ProtocolWizard.java:1011 | indexOf is -1 exactly when there is no occurrence, otherwise the first one |
| JavaText.IndexOfUnique | mylibrary/src/main/java/com/clearcaptions/transport/protocol/ProtocolWizard.java:1011 | the first occurrence is the only index with those two properties |
| JavaText.CutAtSep | mylibrary/src/main/java/com/clearcaptions/transport/protocol/ProtocolWizard.java:1071-1073 | the value cut is a prefix of the text, and equals the text exactly when "\|\|" is absent or at index 0 |
| JavaText.CutHasNoSep | mylibrary/src/main/java/com/clearcaptions/transport/protocol/ProtocolWizard.java:1171-1173 | a cut value holds no "\|\|" and, when shortened, ends just before the first one |
| JavaText.KeyIndex | mylibrary/src/main/java/com/clearcaptions/transport/protocol/ProtocolWizard.java:1066 | a key found in the upper-cased packet fits inside the packet |
| JavaText.Field | mylibrary/src/main/java/com/clearcaptions/transport/protocol/ProtocolWizard.java:1066-1073 | a value exists exactly when the key occurs (after upper-casing) and is a prefix of the text after the key |
| JavaText.FieldPastStart | mylibrary/src/main/java/com/clearcaptions/transport/protocol/ProtocolWizard.java:1176-1182 | with the `r > 0` test, a key at index 0 yields no value; otherwise the same value as Field |
| JavaText.FieldWithKey | mylibrary/src/main/java/com/clearcaptions/transport/protocol/ProtocolWizard.java:1498-1506 | the value cut from the key's own position exists exactly when the key occurs and is a prefix of the packet from there |
| JavaText.FieldWithKeyKeepsKey | mylibrary/src/main/java/com/clearcaptions/transport/protocol/ProtocolWizard.java:1498-1506 | a value cut from its key's position still starts with the key |
| JavaText.CutKeepsHead | mylibrary/src/main/java/com/clearcaptions/transport/protocol/ProtocolWizard.java:1071-1073 | the cut keeps any head of the text that holds no '\|' |
| JavaText.RestAfter | mylibrary/src/main/java/com/clearcaptions/transport/protocol/ProtocolWizard.java:1076-1079 | the message after a key runs to the end of the packet |
| JavaText.Wrap32 | mylibrary/src/main/java/com/clearcaptions/transport/protocol/ProtocolWizard.java:1193 | Java int arithmetic: the result is a 32-bit value congruent to the exact one modulo 2^32, equal to it when it fits |
| JavaText.ParseInt | mylibrary/src/main/java/com/clearcaptions/transport/protocol/ProtocolWizard.java:1156 | Integer.parseInt: a 32-bit value from an optional sign and digits; plain digits in range read as their value; anything else fails |
| JavaText.NatDecimal | mylibrary/src/main/java/gov/nist/com/clearcaptions/javax/sip/header/StatusLine.java:115-121 | Integer.toString of a non-negative value is a non-empty digit string |
| JavaText.Decimal | mylibrary/src/main/java/gov/nist/com/clearcaptions/javax/sip/header/StatusLine.java:115-121 | Integer.toString is non-empty |
| JavaText.NatDecimalValue | mylibrary/src/main/java/gov/nist/com/clearcaptions/javax/sip/header/StatusLine.java:115-121 | the digits written for n have the value n |
| JavaText.ParseDecimal | mylibrary/src/main/java/gov/nist/com/clearcaptions/javax/sip/header/StatusLine.java:115-121 | Integer.parseInt reads back what Integer.toString wrote, for every int |
| JavaText.DecimalAlphabet | mylibrary/src/main/java/gov/nist/com/clearcaptions/javax/sip/header/StatusLine.java:115-121 | Integer.toString writes only digits and a minus sign |
| JavaText.Pieces | mylibrary/src/main/java/com/clearcaptions/transport/network/ReadThread.java:73 | the pieces between separators: at least one, none holding the separator |
| JavaText.PiecesAtFirst | mylibrary/src/main/java/com/clearcaptions/transport/network/ReadThread.java:73 | the first piece ends at the first separator |
| JavaText.PiecesOfTwo | mylibrary/src/main/java/com/clearcaptions/transport/network/ReadThread.java:73 | two separator-free parts joined by the separator give exactly those two pieces |
| JavaText.SplitOfTwo | mylibrary/src/main/java/com/clearcaptions/transport/network/ReadThread.java:73 | split of "a" + c + "b" with b non-empty gives the two parts |
| JavaText.JoinPieces | mylibrary/src/main/java/com/clearcaptions/transport/network/ReadThread.java:73 | joining the pieces with the separator gives the text back |
| JavaText.DropTrailingEmpty | mylibrary/src/main/java/com/clearcaptions/transport/network/ReadThread.java:73 | split drops exactly the trailing empty pieces: a prefix whose last piece is non-empty |
| JavaText.Split | mylibrary/src/main/java/com/clearcaptions/transport/network/ReadThread.java:73 | split on an absent character returns the text itself; no piece holds the separator |
| JavaText.TrimStart | mylibrary/src/main/java/com/clearcaptions/transport/network/ReadThread.java:72 | trim's leading part: a suffix of the text that does not start at or below U+0020 |
| JavaText.TrimEnd | mylibrary/src/main/java/com/clearcaptions/transport/network/ReadThread.java:72 | trim's trailing part: a prefix of the text that does not end at or below U+0020 |
| JavaText.Trim | mylibrary/src/main/java/com/clearcaptions/transport/network/ReadThread.java:72 | the trimmed text is no longer and neither starts nor ends at or below U+0020 |
| JavaText.ReplaceAllAtFirst | mylibrary/src/main/java/com/clearcaptions/transport/protocol/ProtocolWizard.java:1020-1027 | reassembly copies the text up to the first marker and puts the newline in its place |
| JavaText.ReplaceAllWithoutMarker | mylibrary/src/main/java/com/clearcaptions/transport/protocol/ProtocolWizard.java:1020-1027 | text without the marker is left as it is |
| JavaText.ReplaceFirstStep | mylibrary/src/main/java/com/clearcaptions/transport/protocol/ProtocolWizard.java:1020-1027 | one pass of the loop (replace the first marker only) keeps the overall result |
| JavaText.ReplaceAllRemovesMarker | mylibrary/src/main/java/com/clearcaptions/transport/protocol/ProtocolWizard.java:1020-1027 | after reassembly no marker is left, since the newline is not part of it |
| Session.Initial | mylibrary/src/main/java/com/clearcaptions/transport/protocol/ProtocolWizard.java:111-139 | a new wizard is ONHOOK, unregistered, not in a call, with no session, first contact 0, the first poll and first wait pending, polling on, a 5000 ms retry interval, no event logging, the WebSocket transport and nothing done yet |
| Session.ExtendsTrans | mylibrary/src/main/java/com/clearcaptions/transport/protocol/ProtocolWizard.java:1052-1614 | appending to the event log is transitive, so every chain of handler blocks only appends |
| Session.Emit | mylibrary/src/main/java/com/clearcaptions/transport/protocol/ProtocolWizard.java:1052-1614 | the event is appended and nothing else changes |
| Session.Note | mylibrary/src/main/java/com/clearcaptions/transport/protocol/ProtocolWizard.java:581-582 | callback().processState(s, msg) appends exactly that notification and changes nothing else |
| Session.Send | mylibrary/src/main/java/com/clearcaptions/transport/protocol/ProtocolWizard.java:2239-2266 | SendCommand only appends the command, built from the current session values |
| Session.LogEvent | mylibrary/src/main/java/com/clearcaptions/transport/protocol/ProtocolWizard.java:666-691 | the packet is echoed to the server exactly when logEvents() is positive, and nothing else changes |
| Session.EndCall | mylibrary/src/main/java/com/clearcaptions/transport/protocol/ProtocolWizard.java:656-664 | endCall() only appends to the log (what else it changes: SessionFacts.EndCallKeeps) |
| Session.StopCall | mylibrary/src/main/java/com/clearcaptions/transport/protocol/ProtocolWizard.java:852-859 | stopCall(msg) only appends to the log |
| Session.Shutdown | mylibrary/src/main/java/com/clearcaptions/transport/protocol/ProtocolWizard.java:1712-1728 | shutdown(s) only appends to the log (its resets: SessionFacts.ShutdownResets) |
| Session.StartCall | mylibrary/src/main/java/com/clearcaptions/transport/protocol/ProtocolWizard.java:804-814 | startCall() only appends to the log |
| Session.InitiateCall | mylibrary/src/main/java/com/clearcaptions/transport/protocol/ProtocolWizard.java:1654-1664 | initiateCall() only appends to the log |
| Session.SendPoll | mylibrary/src/main/java/com/clearcaptions/transport/protocol/ProtocolWizard.java:1616-1652 | SendPoll() only appends to the log (its flags: SessionFacts.PollFlags) |
| Session.NetConnect | mylibrary/src/main/java/com/clearcaptions/transport/protocol/ProtocolWizard.java:946-989 | the dispatch of netConnect() only appends to the log |
| Session.Pow2 | mylibrary/src/main/java/com/clearcaptions/transport/protocol/ProtocolWizard.java:474-483 | a power of two is at least 1 |
| Session.IntervalCap | mylibrary/src/main/java/com/clearcaptions/transport/protocol/ProtocolWizard.java:474-483 | the back-off ceiling never exceeds 30000 ms |
| Session.GenerateInterval | mylibrary/src/main/java/com/clearcaptions/transport/protocol/ProtocolWizard.java:474-483 | the back-off lies in [0, cap], strictly below the cap whenever the cap is positive, and is 0 for attempt 0 |
| Session.Route | mylibrary/src/main/java/com/clearcaptions/transport/protocol/ProtocolWizard.java:587-597 | handleState outside CONNECTION_LOST only appends to the log (its outcomes: SessionFacts.RouteOutcomes) |
| Session.LoseConnection | mylibrary/src/main/java/com/clearcaptions/transport/protocol/ProtocolWizard.java:494-586 | handleState(CONNECTION_LOST) only appends to the log (its branches: the SessionFacts Loss and Retry lemmas) |
| Session.LostOutsideCall | mylibrary/src/main/java/com/clearcaptions/transport/protocol/ProtocolWizard.java:557-584 | outside a call the loss only appends to the log |
| Session.Reconnect | mylibrary/src/main/java/com/clearcaptions/transport/protocol/ProtocolWizard.java:517-555 | a retry only appends to the log |
| Session.Slept | mylibrary/src/main/java/com/clearcaptions/transport/protocol/ProtocolWizard.java:517-520 | the attempt counted and the sleep only append to the log |
| Session.Woken | mylibrary/src/main/java/com/clearcaptions/transport/protocol/ProtocolWizard.java:521-555 | after the back-off the log is only appended to |
| Session.Reopened | mylibrary/src/main/java/com/clearcaptions/transport/protocol/ProtocolWizard.java:528-537 | reopening the connection only appends to the log (SessionFacts.ReopenedKeepsState: nothing else) |
| Session.RetryOutcome | mylibrary/src/main/java/com/clearcaptions/transport/protocol/ProtocolWizard.java:538-582 | the reported outcome only appends to the log (SessionFacts.OutcomeKeepsState: nothing else) |
| Session.HandleState | mylibrary/src/main/java/com/clearcaptions/transport/protocol/ProtocolWizard.java:488-599 | handleState only appends to the log |
| Session.OnlineStep | mylibrary/src/main/java/com/clearcaptions/transport/protocol/ProtocolWizard.java:1001-1009 | ONLINE only appends to the log (SessionFacts.OnlineReportedOnce: what it reports) |
| Session.CaptionStep | mylibrary/src/main/java/com/clearcaptions/transport/protocol/ProtocolWizard.java:1030-1031 | delivering the caption only appends to the log |
| Session.QueuedStep | mylibrary/src/main/java/com/clearcaptions/transport/protocol/ProtocolWizard.java:1034-1042 | QUEUED only appends to the log (SessionFacts.QueuedReportedOnce: once only) |
| Session.DisconnectedStep | mylibrary/src/main/java/com/clearcaptions/transport/protocol/ProtocolWizard.java:1043-1049 | DISCONNECTED only appends to the log |
| Session.StateUpdate | mylibrary/src/main/java/com/clearcaptions/transport/protocol/ProtocolWizard.java:992-1050 | Handlei711State only appends to the log |
| Session.NoteIf | mylibrary/src/main/java/com/clearcaptions/transport/protocol/ProtocolWizard.java:1128-1135 | reporting an optional value only appends to the log |
| Session.SessionIf | mylibrary/src/main/java/com/clearcaptions/transport/protocol/ProtocolWizard.java:1243-1252 | installing an optional session only appends to the log |
| Session.ErrorCodeBlock | mylibrary/src/main/java/com/clearcaptions/transport/protocol/ProtocolWizard.java:1066-1091 | the ERRCODE= block only appends to the log |
| Session.StateIfFound | mylibrary/src/main/java/com/clearcaptions/transport/protocol/ProtocolWizard.java:1123-1127 | a STATE= past index 0 runs Handlei711State; the log is only appended to |
| Session.PollBlock | mylibrary/src/main/java/com/clearcaptions/transport/protocol/ProtocolWizard.java:1093-1136 | the POLLDATA= block only appends to the log (SessionFacts.StateAtStartIgnored: a STATE= at index 0 changes nothing) |
| Session.ResumeBlock | mylibrary/src/main/java/com/clearcaptions/transport/protocol/ProtocolWizard.java:1138-1143 | RESUME= only appends to the log |
| Session.SetNumber | mylibrary/src/main/java/com/clearcaptions/transport/protocol/ProtocolWizard.java:1176-1194 | storing LOG= or RETRYINTERVAL= only appends to the log, whether it completes or throws |
| Session.Registered | mylibrary/src/main/java/com/clearcaptions/transport/protocol/ProtocolWizard.java:1166-1201 | the accepted registration only appends to the log, whether it completes or throws |
| Session.Limits | mylibrary/src/main/java/com/clearcaptions/transport/protocol/ProtocolWizard.java:1176-1194 | LOG= then RETRYINTERVAL= only append to the log |
| Session.Accepted | mylibrary/src/main/java/com/clearcaptions/transport/protocol/ProtocolWizard.java:1196-1201 | ONHOOK and initiateCall() only append to the log |
| Session.RegReturnBlock | mylibrary/src/main/java/com/clearcaptions/transport/protocol/ProtocolWizard.java:1145-1218 | the REGRETURN= block only appends to the log (its outcomes: the SessionFacts Registration lemmas) |
| Session.RegDecision | mylibrary/src/main/java/com/clearcaptions/transport/protocol/ProtocolWizard.java:1166-1217 | the registration decision only appends to the log |
| Session.Answered | mylibrary/src/main/java/com/clearcaptions/transport/protocol/ProtocolWizard.java:1253-1268 | an answered relay only appends to the log |
| Session.RelayStartBlock | mylibrary/src/main/java/com/clearcaptions/transport/protocol/ProtocolWizard.java:1220-1283 | the RELAYSTART= block only appends to the log |
| Session.RelayAnswer | mylibrary/src/main/java/com/clearcaptions/transport/protocol/ProtocolWizard.java:1253-1282 | the relay answer only appends to the log |
| Session.SwitchOpBlock | mylibrary/src/main/java/com/clearcaptions/transport/protocol/ProtocolWizard.java:1285-1306 | SWITCHOP only appends to the log |
| Session.OperatorOnline | mylibrary/src/main/java/com/clearcaptions/transport/protocol/ProtocolWizard.java:1285-1306 | reporting the new operator only appends to the log |
| Session.StatusUpdateBlock | mylibrary/src/main/java/com/clearcaptions/transport/protocol/ProtocolWizard.java:1312-1346 | STATUSUPDATE only appends to the log |
| Session.SetOperator | mylibrary/src/main/java/com/clearcaptions/transport/protocol/ProtocolWizard.java:1351-1438 | remembering OP= only appends to the log |
| Session.OperatorState | mylibrary/src/main/java/com/clearcaptions/transport/protocol/ProtocolWizard.java:1351-1438 | the STATE= of a state change only appends to the log |
| Session.StateChangeBlock | mylibrary/src/main/java/com/clearcaptions/transport/protocol/ProtocolWizard.java:1351-1438 | STATECHANGE only appends to the log |
| Session.SendTextBlock | mylibrary/src/main/java/com/clearcaptions/transport/protocol/ProtocolWizard.java:1440-1477 | SENDTEXT only appends to the log |
| Session.SendCommandBlock | mylibrary/src/main/java/com/clearcaptions/transport/protocol/ProtocolWizard.java:1479-1510 | SENDCOMMAND only appends to the log (SessionFacts.VolumeKeepsKey: what it reports) |
| Session.SipSessionBlock | mylibrary/src/main/java/com/clearcaptions/transport/protocol/ProtocolWizard.java:1515-1578 | START/RESTART SIPSESSION only appends to the log (SessionFacts.SipSessionKeepsKeys: what it reports) |
| Session.StopSipBlock | mylibrary/src/main/java/com/clearcaptions/transport/protocol/ProtocolWizard.java:1580-1586 | STOPSIPSESSION only appends to the log |
| Session.StopRelayBlock | mylibrary/src/main/java/com/clearcaptions/transport/protocol/ProtocolWizard.java:1588-1592 | STOPRELAY= only appends to the log |
| Session.TestCallBlock | mylibrary/src/main/java/com/clearcaptions/transport/protocol/ProtocolWizard.java:1594-1607 | TESTCALL only appends to the log |
| Session.EndTestCallBlock | mylibrary/src/main/java/com/clearcaptions/transport/protocol/ProtocolWizard.java:1609-1613 | ENDTESTCALL only appends to the log |
| Session.MethodBlocks | mylibrary/src/main/java/com/clearcaptions/transport/protocol/ProtocolWizard.java:1285-1613 | the blocks after RELAYSTART= only append to the log |
| Session.Inbound | mylibrary/src/main/java/com/clearcaptions/transport/protocol/ProtocolWizard.java:1052-1614 | after the echo of the packet (only while logEvents() > 0) the inbound handler only appends to the log, however it leaves |
| Protocol.ReassembleCaption | mylibrary/src/main/java/com/clearcaptions/transport/protocol/ProtocolWizard.java:1018-1028 | the reassembly loop yields Session.Caption of the text (every fragment separator replaced by char 13) and leaves no separator in it |
| Protocol.ProtocolWizard.constructor | mylibrary/src/main/java/com/clearcaptions/transport/protocol/ProtocolWizard.java:111-139 | the new wizard's fields are Session.Initial() |
| Protocol.ProtocolWizard.Record | mylibrary/src/main/java/com/clearcaptions/transport/protocol/ProtocolWizard.java:1052-1614 | the event is appended to the log and no other field changes |
| Protocol.ProtocolWizard.Report | mylibrary/src/main/java/com/clearcaptions/transport/protocol/ProtocolWizard.java:581-582 | callback().processState appends that notification and changes nothing else |
| Protocol.ProtocolWizard.SendCommand | mylibrary/src/main/java/com/clearcaptions/transport/protocol/ProtocolWizard.java:2239-2266 | the command, built from the current profile, is appended and nothing else changes |
| Protocol.ProtocolWizard.LogEvent | mylibrary/src/main/java/com/clearcaptions/transport/protocol/ProtocolWizard.java:666-691 | the fields become Session.LogEvent of the old ones: an echo only while logEvents() > 0 |
| Protocol.ProtocolWizard.EndCall | mylibrary/src/main/java/com/clearcaptions/transport/protocol/ProtocolWizard.java:656-664 | the fields become Session.EndCall of the old ones |
| Protocol.ProtocolWizard.StopCall | mylibrary/src/main/java/com/clearcaptions/transport/protocol/ProtocolWizard.java:852-859 | the fields become Session.StopCall of the old ones |
| Protocol.ProtocolWizard.Shutdown | mylibrary/src/main/java/com/clearcaptions/transport/protocol/ProtocolWizard.java:1712-1728 | the fields become Session.Shutdown of the old ones |
| Protocol.ProtocolWizard.ForgetCall | mylibrary/src/main/java/com/clearcaptions/transport/protocol/ProtocolWizard.java:1716-1718 | the number is cleared, the registration dropped and the state set; nothing else changes |
| Protocol.ProtocolWizard.ResetPolling | mylibrary/src/main/java/com/clearcaptions/transport/protocol/ProtocolWizard.java:1722-1725 | the polling flags return to their values before the first contact; nothing else changes |
| Protocol.ProtocolWizard.StartCall | mylibrary/src/main/java/com/clearcaptions/transport/protocol/ProtocolWizard.java:804-814 | the fields become Session.StartCall of the old ones |
| Protocol.ProtocolWizard.InitiateCall | mylibrary/src/main/java/com/clearcaptions/transport/protocol/ProtocolWizard.java:1654-1664 | the fields become Session.InitiateCall of the old ones |
| Protocol.ProtocolWizard.SendPoll | mylibrary/src/main/java/com/clearcaptions/transport/protocol/ProtocolWizard.java:1616-1652 | the fields become Session.SendPoll of the old ones |
| Protocol.ProtocolWizard.NetConnect | mylibrary/src/main/java/com/clearcaptions/transport/protocol/ProtocolWizard.java:946-989 | the fields become Session.NetConnect of the old ones |
| Protocol.ProtocolWizard.HandleState | mylibrary/src/main/java/com/clearcaptions/transport/protocol/ProtocolWizard.java:488-599 | the fields become Session.HandleState of the old ones, with the reconnect's outcome as a parameter |
| Protocol.ProtocolWizard.LoseConnection | mylibrary/src/main/java/com/clearcaptions/transport/protocol/ProtocolWizard.java:494-586 | the fields become Session.LoseConnection of the old ones |
| Protocol.ProtocolWizard.Retry | mylibrary/src/main/java/com/clearcaptions/transport/protocol/ProtocolWizard.java:517-584 | the fields become Session.Reconnect of the old ones |
| Protocol.ProtocolWizard.AfterSleep | mylibrary/src/main/java/com/clearcaptions/transport/protocol/ProtocolWizard.java:521-584 | the fields become Session.Woken of the old ones |
| Protocol.ProtocolWizard.BackOff | mylibrary/src/main/java/com/clearcaptions/transport/protocol/ProtocolWizard.java:517-520 | the attempt is counted and the sleep for generateInterval recorded, as Session.Slept |
| Protocol.ProtocolWizard.Reopen | mylibrary/src/main/java/com/clearcaptions/transport/protocol/ProtocolWizard.java:528-584 | the reconnection, its report and the guard cleared, as Session.Reopened and Session.RetryOutcome |
| Protocol.ProtocolWizard.ReportRetry | mylibrary/src/main/java/com/clearcaptions/transport/protocol/ProtocolWizard.java:538-582 | the fields become Session.RetryOutcome of the old ones |
| Protocol.ProtocolWizard.ReopenConnection | mylibrary/src/main/java/com/clearcaptions/transport/protocol/ProtocolWizard.java:528-537 | the fields become Session.Reopened of the old ones |
| Protocol.ProtocolWizard.Route | mylibrary/src/main/java/com/clearcaptions/transport/protocol/ProtocolWizard.java:587-597 | the fields become Session.Route of the old ones |
| Protocol.ProtocolWizard.HandleStateValue | mylibrary/src/main/java/com/clearcaptions/transport/protocol/ProtocolWizard.java:992-1050 | the fields become Session.StateUpdate of the old ones |
| Protocol.ProtocolWizard.GoOnline | mylibrary/src/main/java/com/clearcaptions/transport/protocol/ProtocolWizard.java:1001-1033 | on ONLINE the caption returned is the packet's reassembled RECEIVEDTEXT=, and the fields follow Session.OnlineStep then Session.CaptionStep |
| Protocol.ProtocolWizard.Queue | mylibrary/src/main/java/com/clearcaptions/transport/protocol/ProtocolWizard.java:1034-1042 | the fields become Session.QueuedStep of the old ones |
| Protocol.ProtocolWizard.Disconnect | mylibrary/src/main/java/com/clearcaptions/transport/protocol/ProtocolWizard.java:1043-1049 | the fields become Session.DisconnectedStep of the old ones |
| Protocol.ProtocolWizard.StateIfFound | mylibrary/src/main/java/com/clearcaptions/transport/protocol/ProtocolWizard.java:1123-1127 | the fields become Session.StateIfFound of the old ones |
| Protocol.ProtocolWizard.ErrorCode | mylibrary/src/main/java/com/clearcaptions/transport/protocol/ProtocolWizard.java:1066-1091 | the fields become Session.ErrorCodeBlock of the old ones |
| Protocol.ProtocolWizard.Poll | mylibrary/src/main/java/com/clearcaptions/transport/protocol/ProtocolWizard.java:1093-1136 | the fields become Session.PollBlock of the old ones |
| Protocol.ProtocolWizard.Resume | mylibrary/src/main/java/com/clearcaptions/transport/protocol/ProtocolWizard.java:1138-1143 | the fields become Session.ResumeBlock of the old ones |
| Protocol.ProtocolWizard.StoreNumber | mylibrary/src/main/java/com/clearcaptions/transport/protocol/ProtocolWizard.java:1176-1194 | fields and flow are Session.SetNumber of the old fields |
| Protocol.ProtocolWizard.Register | mylibrary/src/main/java/com/clearcaptions/transport/protocol/ProtocolWizard.java:1166-1201 | fields and flow are Session.Registered of the old fields |
| Protocol.ProtocolWizard.StoreLimits | mylibrary/src/main/java/com/clearcaptions/transport/protocol/ProtocolWizard.java:1176-1194 | fields and flow are Session.Limits of the old fields |
| Protocol.ProtocolWizard.Accept | mylibrary/src/main/java/com/clearcaptions/transport/protocol/ProtocolWizard.java:1196-1201 | the fields become Session.Accepted of the old ones |
| Protocol.ProtocolWizard.RegReturn | mylibrary/src/main/java/com/clearcaptions/transport/protocol/ProtocolWizard.java:1145-1218 | fields and flow are Session.RegReturnBlock of the old fields |
| Protocol.ProtocolWizard.PollingOff | mylibrary/src/main/java/com/clearcaptions/transport/protocol/ProtocolWizard.java:1162-1164 | POLLING=0 past the start sets dontPoll; nothing else changes |
| Protocol.ProtocolWizard.Decide | mylibrary/src/main/java/com/clearcaptions/transport/protocol/ProtocolWizard.java:1166-1217 | fields and flow are Session.RegDecision of the old fields |
| Protocol.ProtocolWizard.RelayStart | mylibrary/src/main/java/com/clearcaptions/transport/protocol/ProtocolWizard.java:1220-1283 | fields and flow are Session.RelayStartBlock of the old fields |
| Protocol.ProtocolWizard.Answer | mylibrary/src/main/java/com/clearcaptions/transport/protocol/ProtocolWizard.java:1253-1282 | fields and flow are Session.RelayAnswer of the old fields |
| Protocol.ProtocolWizard.SwitchOp | mylibrary/src/main/java/com/clearcaptions/transport/protocol/ProtocolWizard.java:1285-1306 | the fields become Session.SwitchOpBlock of the old ones |
| Protocol.ProtocolWizard.StatusUpdate | mylibrary/src/main/java/com/clearcaptions/transport/protocol/ProtocolWizard.java:1312-1346 | the fields become Session.StatusUpdateBlock of the old ones |
| Protocol.ProtocolWizard.ReportIf | mylibrary/src/main/java/com/clearcaptions/transport/protocol/ProtocolWizard.java:1351-1438 | an optional value is reported, as Session.NoteIf |
| Protocol.ProtocolWizard.StateChange | mylibrary/src/main/java/com/clearcaptions/transport/protocol/ProtocolWizard.java:1351-1438 | the fields become Session.StateChangeBlock of the old ones |
| Protocol.ProtocolWizard.OperatorOnlineOrQueued | mylibrary/src/main/java/com/clearcaptions/transport/protocol/ProtocolWizard.java:1351-1438 | the fields become Session.OperatorState of the old ones |
| Protocol.ProtocolWizard.SendText | mylibrary/src/main/java/com/clearcaptions/transport/protocol/ProtocolWizard.java:1440-1477 | the fields become Session.SendTextBlock of the old ones |
| Protocol.ProtocolWizard.SendCommandNotice | mylibrary/src/main/java/com/clearcaptions/transport/protocol/ProtocolWizard.java:1479-1510 | the fields become Session.SendCommandBlock of the old ones |
| Protocol.ProtocolWizard.SipSession | mylibrary/src/main/java/com/clearcaptions/transport/protocol/ProtocolWizard.java:1515-1578 | the fields become Session.SipSessionBlock of the old ones |
| Protocol.ProtocolWizard.StopSip | mylibrary/src/main/java/com/clearcaptions/transport/protocol/ProtocolWizard.java:1580-1586 | the fields become Session.StopSipBlock of the old ones |
| Protocol.ProtocolWizard.StopRelay | mylibrary/src/main/java/com/clearcaptions/transport/protocol/ProtocolWizard.java:1588-1592 | the fields become Session.StopRelayBlock of the old ones |
| Protocol.ProtocolWizard.TestCall | mylibrary/src/main/java/com/clearcaptions/transport/protocol/ProtocolWizard.java:1594-1607 | the fields become Session.TestCallBlock of the old ones |
| Protocol.ProtocolWizard.EndTestCall | mylibrary/src/main/java/com/clearcaptions/transport/protocol/ProtocolWizard.java:1609-1613 | the fields become Session.EndTestCallBlock of the old ones |
| Protocol.ProtocolWizard.HandleInboundPacket | mylibrary/src/main/java/com/clearcaptions/transport/protocol/ProtocolWizard.java:1052-1614 | fields and flow are Session.Inbound of the old fields: every block in turn until one returns or throws |
| SessionFacts.KeepAliveOnlyRestartsTimer | mylibrary/src/main/java/com/clearcaptions/transport/protocol/ProtocolWizard.java:1057-1063 | a packet mentioning KEEPALIVE in any case restarts the WAN timer after the echo, returns, and changes nothing else |
| SessionFacts.RegistrationAccepted | mylibrary/src/main/java/com/clearcaptions/transport/protocol/ProtocolWizard.java:1145-1202 | code 1 with a MYID= past the start installs the session, the log level and the retry interval (seconds to ms in 32-bit arithmetic), honours POLLING=0, registers, reports ONHOOK then CALLING and sends StartRelay with the new session |
| SessionFacts.RegisteredState | mylibrary/src/main/java/com/clearcaptions/transport/protocol/ProtocolWizard.java:1166-1201 | the accepted registration's whole new state and its three events |
| SessionFacts.BothNumbersSet | mylibrary/src/main/java/com/clearcaptions/transport/protocol/ProtocolWizard.java:1176-1194 | LOG= and RETRYINTERVAL=, absent or numeric, are both stored and the handler goes on |
| SessionFacts.OnhookThenCalling | mylibrary/src/main/java/com/clearcaptions/transport/protocol/ProtocolWizard.java:1196-1201 | ONHOOK with the registration, then CALLING and StartRelay, in that order |
| SessionFacts.RegisteredOnceSet | mylibrary/src/main/java/com/clearcaptions/transport/protocol/ProtocolWizard.java:1174-1201 | once both numbers are stored the registration goes on to ONHOOK and initiateCall() |
| SessionFacts.SetNumberDefined | mylibrary/src/main/java/com/clearcaptions/transport/protocol/ProtocolWizard.java:1176-1194 | an absent or numeric field is stored (seconds times 1000 for the retry interval) and the handler goes on |
| SessionFacts.RegistrationRefused | mylibrary/src/main/java/com/clearcaptions/transport/protocol/ProtocolWizard.java:1203-1217 | any other code, or no MYID= past the start: the session and number are cleared, the flags reset, WAN timer stopped, CALL_ENDED reported with an empty message, socket closed, and the handler returns |
| SessionFacts.RegistrationWithoutSeparator | mylibrary/src/main/java/com/clearcaptions/transport/protocol/ProtocolWizard.java:1150-1153 | REGRETURN= with no following "\|\|" throws out of the handler before anything changes |
| SessionFacts.RegistrationBadLogLevel | mylibrary/src/main/java/com/clearcaptions/transport/protocol/ProtocolWizard.java:1174-1184 | a non-numeric LOG= throws with the session installed, nothing reported and the state and registration unchanged |
| SessionFacts.OnlineReportedOnce | mylibrary/src/main/java/com/clearcaptions/transport/protocol/ProtocolWizard.java:1001-1009 | ONLINE puts the wizard in the call and reports ONLINE only at the first contact; a second ONLINE changes nothing |
| SessionFacts.QueuedReportedOnce | mylibrary/src/main/java/com/clearcaptions/transport/protocol/ProtocolWizard.java:1034-1042 | QUEUED shows the waiting message only the first time; a second QUEUED changes nothing |
| SessionFacts.NlNotInMarker | mylibrary/src/main/java/com/clearcaptions/transport/protocol/ProtocolWizard.java:1020-1027 | helper of SessionFacts.CaptionHasNoMarker: char 13 does not occur in the fragment separator |
| SessionFacts.CaptionHasNoMarker | mylibrary/src/main/java/com/clearcaptions/transport/protocol/ProtocolWizard.java:1018-1028 | the reassembled caption contains no fragment separator |
| SessionFacts.CaptionDelivered | mylibrary/src/main/java/com/clearcaptions/transport/protocol/ProtocolWizard.java:1001-1042 | ONLINE with RECEIVEDTEXT= past the start reports the first contact, then DATA with the reassembled caption; the QUEUED test then looks at the caption |
| SessionFacts.EndCallKeeps | mylibrary/src/main/java/com/clearcaptions/transport/protocol/ProtocolWizard.java:656-664 | endCall() leaves the call and changes nothing but the log |
| SessionFacts.LaterStepsKeep | mylibrary/src/main/java/com/clearcaptions/transport/protocol/ProtocolWizard.java:1034-1049 | QUEUED and DISCONNECTED leave the first-contact count alone and clear the first wait exactly on QUEUED |
| SessionFacts.StateAtStartIgnored | mylibrary/src/main/java/com/clearcaptions/transport/protocol/ProtocolWizard.java:1123-1127 | a poll packet whose STATE= is at index 0 changes nothing but the log |
| SessionFacts.PollFlags | mylibrary/src/main/java/com/clearcaptions/transport/protocol/ProtocolWizard.java:1616-1652 | a poll is silenced by dontPoll; otherwise it sends PollData flagged firstPoll=1 on the first poll and firstOpContact=1 on the first after the first contact, whose text is given, and clears both flags |
| SessionFacts.LaterPollsPlain | mylibrary/src/main/java/com/clearcaptions/transport/protocol/ProtocolWizard.java:1616-1652 | the poll after a poll carries neither flag |
| SessionFacts.ShutdownResets | mylibrary/src/main/java/com/clearcaptions/transport/protocol/ProtocolWizard.java:1712-1728 | shutdown(s) is in state s, unregistered, without the number, flags reset, with WAN timer stopped, s reported and socket closed; the next poll is flagged as first again |
| SessionFacts.RouteOutcomes | mylibrary/src/main/java/com/clearcaptions/transport/protocol/ProtocolWizard.java:587-597 | CALL_ENDED and CONNECT_FAILED clear the session and shut down, ignoring the message; any other state is only reported with its message |
| SessionFacts.LossAfterEnd | mylibrary/src/main/java/com/clearcaptions/transport/protocol/ProtocolWizard.java:495-499 | a loss after CALL_ENDED only stops the call again, guard untouched |
| SessionFacts.LossWhileRetrying | mylibrary/src/main/java/com/clearcaptions/transport/protocol/ProtocolWizard.java:502 | a loss while a retry is under way changes nothing |
| SessionFacts.LossOutsideCall | mylibrary/src/main/java/com/clearcaptions/transport/protocol/ProtocolWizard.java:557-584 | outside a call the threads quit and CALL_ENDED is reported with the lost message |
| SessionFacts.RetryOverLimit | mylibrary/src/main/java/com/clearcaptions/transport/protocol/ProtocolWizard.java:512-516 | past three attempts the call stops and the guard stays set |
| SessionFacts.RetryInterrupted | mylibrary/src/main/java/com/clearcaptions/transport/protocol/ProtocolWizard.java:517-527 | an interrupted back-off counts the attempt, stops the call and leaves the guard set |
| SessionFacts.RetrySucceeds | mylibrary/src/main/java/com/clearcaptions/transport/protocol/ProtocolWizard.java:517-584 | a WebSocket retry that goes through sleeps once, reopens, re-registers while REGISTERING (otherwise reports CONNECTION_LOST) and clears the guard |
| SessionFacts.SocketRetryRegistersTwice | mylibrary/src/main/java/com/clearcaptions/transport/protocol/ProtocolWizard.java:531-544 | on the plain socket a REGISTERING retry sends the registration twice, once from netConnect() and once from registerCall() |
| SessionFacts.RetryFails | mylibrary/src/main/java/com/clearcaptions/transport/protocol/ProtocolWizard.java:551-555 | a failed reopening reports the failure message last, keeping the state and the call |
| SessionFacts.GoodRetryKeepsState | mylibrary/src/main/java/com/clearcaptions/transport/protocol/ProtocolWizard.java:517-584 | a good retry changes nothing but the attempt count and the log |
| SessionFacts.ReopenedKeepsState | mylibrary/src/main/java/com/clearcaptions/transport/protocol/ProtocolWizard.java:528-537 | reopening the connection changes nothing but the log |
| SessionFacts.OutcomeKeepsState | mylibrary/src/main/java/com/clearcaptions/transport/protocol/ProtocolWizard.java:538-582 | reporting the retry outcome changes nothing but the log |
| SessionFacts.ThreeRetriesThenStop | mylibrary/src/main/java/com/clearcaptions/transport/protocol/ProtocolWizard.java:494-586 | from startCall() in a call, three losses are retried and the fourth stops the call with the guard left set |
| SessionFacts.GuardStaysSet | mylibrary/src/main/java/com/clearcaptions/transport/protocol/ProtocolWizard.java:512-516 | after a stop past the limit a new startCall() leaves the guard set and every later loss is ignored |
| SessionFacts.VolumeKeepsKey | mylibrary/src/main/java/com/clearcaptions/transport/protocol/ProtocolWizard.java:1479-1510 | SENDCOMMAND reports TYPE= and the VOLUME= value with its key still in front |
| SessionFacts.SipSessionKeepsKeys | mylibrary/src/main/java/com/clearcaptions/transport/protocol/ProtocolWizard.java:1515-1578 | START/RESTART SIPSESSION reports SIPLOCAL= and SIPREMOTE= values with their keys in front |
| SessionFacts.FrameDelivery | mylibrary/src/main/java/com/clearcaptions/transport/protocol/ProtocolWizard.java:2239-2266 | on the WebSocket an ASCII command goes out as text ending in one NUL; on the socket the queued bytes end in two zeros; with neither it is dropped |
| SipSpec.Initial | mylibrary/src/main/java/com/clearcaptions/cloud/sip/SipManager.java:70-80 | a new manager is IDLE, with no session, no tries, no listeners and nothing done |
| SipSpec.Deliveries | mylibrary/src/main/java/com/clearcaptions/cloud/sip/SipManager.java:429-475 | one delivery per listener |
| SipSpec.DeliveriesInOrder | mylibrary/src/main/java/com/clearcaptions/cloud/sip/SipManager.java:469-473 | the k-th delivery goes to the k-th listener, in list order |
| SipSpec.RemoveFirst | mylibrary/src/main/java/com/clearcaptions/cloud/sip/SipManager.java:535-537 | removing an absent listener leaves the list as it was |
| SipSpec.RemoveFirstDropsOne | mylibrary/src/main/java/com/clearcaptions/cloud/sip/SipManager.java:535-537 | removing a present listener drops exactly one copy of it and keeps all others |
| SipSpec.FirstIndex | mylibrary/src/main/java/com/clearcaptions/cloud/sip/SipManager.java:535-537 | the search stops at the first index holding the listener, or at the end when none does |
| SipSpec.RemoveFirstAt | mylibrary/src/main/java/com/clearcaptions/cloud/sip/SipManager.java:535-537 | the removal cuts the list at that first index |
| SipSpec.RemoveAfterAdd | mylibrary/src/main/java/com/clearcaptions/cloud/sip/SipManager.java:521-537 | removing a listener just added, that was not there before, gives the list back |
| SipSpec.StatusAnnouncedOnChange | mylibrary/src/main/java/com/clearcaptions/cloud/sip/SipManager.java:463-475 | setStatusChanged always ends in the new state; it changes nothing exactly when the state is repeated; otherwise it appends one StatusChanged delivery per listener, in order |
| SipSpec.SetStatusIdempotent | mylibrary/src/main/java/com/clearcaptions/cloud/sip/SipManager.java:463-475 | announcing the same state twice is announcing it once |
| SipSpec.OkResponse | mylibrary/src/main/java/com/clearcaptions/cloud/sip/SipManager.java:235-259 | 200 on a call with body, dialog and session is ESTABLISHED with that session; while REGISTERING it is READY and while UNREGISTERING IDLE, both with the tries reset; in any other state nothing changes |
| SipSpec.RingingFallsThrough | mylibrary/src/main/java/com/clearcaptions/cloud/sip/SipManager.java:227-259 | 180 while CALLING announces RINGING and falls into the 200 case on the same response; with body and dialog it ends ESTABLISHED after the RINGING announcement |
| SipSpec.FailureResponses | mylibrary/src/main/java/com/clearcaptions/cloud/sip/SipManager.java:279-320 | 404 is INVALID, 480 and 500 ERROR, 486 BUSY, 603 DECLINED; any unlisted code changes nothing |
| SipSpec.ChallengeCountsTry | mylibrary/src/main/java/com/clearcaptions/cloud/sip/SipManager.java:261-300 | every 401 and 407 adds one try, in 32-bit arithmetic |
| SipSpec.RegistrationRetriesUnbounded | mylibrary/src/main/java/com/clearcaptions/cloud/sip/SipManager.java:261-277 | k challenged 401s while REGISTERING give k more tries and k authorised REGISTERs, with no limit on k |
| SipSpec.ProxyChallengeReinvites | mylibrary/src/main/java/com/clearcaptions/cloud/sip/SipManager.java:283-300 | a challenged 407 sends the authorised INVITE exactly when CALLING with no session and a contact |
| SipSpec.ResetClears | mylibrary/src/main/java/com/clearcaptions/cloud/sip/SipManager.java:399-414 | reset() drops contact, request, session and tries, releases the singleton, resets the handler first, announces session-changed(null) only from ESTABLISHED, then IDLE unless already idle; listeners are kept |
| SipSpec.ByeNeverClearsSession | mylibrary/src/main/java/com/clearcaptions/cloud/sip/SipManager.java:208-217 | a BYE sends 200 OK (ERROR when that throws), announces BYE and resets, so no session-changed(null) is ever delivered for it |
| SipSpec.EndCallSends | mylibrary/src/main/java/com/clearcaptions/cloud/sip/SipManager.java:376-387 | endCall() does nothing without a session; otherwise BYE when ESTABLISHED and CANCEL before, then reset |
| SipSpec.RegisterProfileOutcome | mylibrary/src/main/java/com/clearcaptions/cloud/sip/SipManager.java:115-125 | a local profile goes straight to READY; any other goes REGISTERING and sends REGISTER |
| SipSpec.SendInviteOutcome | mylibrary/src/main/java/com/clearcaptions/cloud/sip/SipManager.java:154-159 | sendInvite keeps the contact, drops the session, is CALLING and sends the INVITE |
| SipSpec.IncomingInviteOutcome | mylibrary/src/main/java/com/clearcaptions/cloud/sip/SipManager.java:175-197 | an INVITE during a session is answered busy; one for the local user rings, keeps the session and the request; one for another user is answered 404 but its session is kept |
| SipManagement.SipManager.constructor | mylibrary/src/main/java/com/clearcaptions/cloud/sip/SipManager.java:70-80 | the new manager's fields are SipSpec.Initial of the profile |
| SipManagement.SipManager.Perform | mylibrary/src/main/java/com/clearcaptions/cloud/sip/SipManager.java:404-406 | the handler action is appended and nothing else changes |
| SipManagement.SipManager.Broadcast | mylibrary/src/main/java/com/clearcaptions/cloud/sip/SipManager.java:429-475 | the loop over the listeners appends one delivery each, in order, as SipSpec.Notify |
| SipManagement.SipManager.SetStatusChanged | mylibrary/src/main/java/com/clearcaptions/cloud/sip/SipManager.java:463-475 | the fields become SipSpec.SetStatus of the old ones |
| SipManagement.SipManager.RegisterProfile | mylibrary/src/main/java/com/clearcaptions/cloud/sip/SipManager.java:115-125 | the fields become SipSpec.RegisterProfile of the old ones |
| SipManagement.SipManager.UnregisterProfile | mylibrary/src/main/java/com/clearcaptions/cloud/sip/SipManager.java:134-141 | the fields become SipSpec.UnregisterProfile of the old ones: IDLE for a local profile, otherwise UNREGISTERING and an UNREGISTER sent |
| SipManagement.SipManager.SendInvite | mylibrary/src/main/java/com/clearcaptions/cloud/sip/SipManager.java:154-159 | the fields become SipSpec.SendInvite of the old ones |
| SipManagement.SipManager.Reset | mylibrary/src/main/java/com/clearcaptions/cloud/sip/SipManager.java:399-414 | the fields become SipSpec.Reset of the old ones |
| SipManagement.SipManager.ClearSession | mylibrary/src/main/java/com/clearcaptions/cloud/sip/SipManager.java:400-409 | the call's fields cleared, the handler reset and an established session's end announced, as SipSpec.ClearSession |
| SipManagement.SipManager.EndCall | mylibrary/src/main/java/com/clearcaptions/cloud/sip/SipManager.java:376-387 | the fields become SipSpec.EndCall of the old ones |
| SipManagement.SipManager.AcceptCall | mylibrary/src/main/java/com/clearcaptions/cloud/sip/SipManager.java:341-344 | 200 OK to the kept request, if any, as SipSpec.AcceptCall |
| SipManagement.SipManager.DeclineCall | mylibrary/src/main/java/com/clearcaptions/cloud/sip/SipManager.java:354-359 | the decline to the kept request, if any, then reset, as SipSpec.DeclineCall |
| SipManagement.SipManager.ConfirmStateAndReset | mylibrary/src/main/java/com/clearcaptions/cloud/sip/SipManager.java:364-366 | confirmStateAndReset() and close() are reset() |
| SipManagement.SipManager.ProcessTimeout | mylibrary/src/main/java/com/clearcaptions/cloud/sip/SipManager.java:325-327 | a timeout announces TIMEOUT, as SipSpec.ProcessTimeout |
| SipManagement.SipManager.IncomingInvite | mylibrary/src/main/java/com/clearcaptions/cloud/sip/SipManager.java:175-197 | the fields become SipSpec.IncomingInvite of the old ones |
| SipManagement.SipManager.Ring | mylibrary/src/main/java/com/clearcaptions/cloud/sip/SipManager.java:183-188 | INCOMING with the caller, the call status, the request kept and 180 Ringing sent |
| SipManagement.SipManager.ProcessRequest | mylibrary/src/main/java/com/clearcaptions/cloud/sip/SipManager.java:170-218 | the fields become SipSpec.ProcessRequest of the old ones |
| SipManagement.SipManager.Acknowledged | mylibrary/src/main/java/com/clearcaptions/cloud/sip/SipManager.java:201-207 | an ACK on the session keeps the dialog, announces ESTABLISHED with the caller and then the session |
| SipManagement.SipManager.HungUp | mylibrary/src/main/java/com/clearcaptions/cloud/sip/SipManager.java:208-217 | BYE: 200 OK or ERROR, BYE announced, then reset |
| SipManagement.SipManager.Ok200 | mylibrary/src/main/java/com/clearcaptions/cloud/sip/SipManager.java:235-259 | the fields become SipSpec.Ok200 of the old ones |
| SipManagement.SipManager.Answered | mylibrary/src/main/java/com/clearcaptions/cloud/sip/SipManager.java:237-247 | the answer's session kept, the dialog set, ACK sent, ESTABLISHED and the session announced |
| SipManagement.SipManager.Unauthorized | mylibrary/src/main/java/com/clearcaptions/cloud/sip/SipManager.java:261-277 | the fields become SipSpec.Unauthorized of the old ones |
| SipManagement.SipManager.ProxyAuthRequired | mylibrary/src/main/java/com/clearcaptions/cloud/sip/SipManager.java:283-300 | the fields become SipSpec.ProxyAuthRequired of the old ones |
| SipManagement.SipManager.ProcessResponse | mylibrary/src/main/java/com/clearcaptions/cloud/sip/SipManager.java:221-322 | the fields become SipSpec.ProcessResponse of the old ones |
| SipManagement.SipManager.AddStatusListener | mylibrary/src/main/java/com/clearcaptions/cloud/sip/SipManager.java:521-527 | the listener is appended, as SipSpec.AddListener |
| SipManagement.SipManager.RemoveStatusListener | mylibrary/src/main/java/com/clearcaptions/cloud/sip/SipManager.java:535-537 | the first copy of the listener is removed, as SipSpec.RemoveListener |
| SipHandlerSpec.Username | mylibrary/src/main/java/com/clearcaptions/cloud/sip/SIPHandler.java:76-80 | a URI without '@' is its own user name |
| SipHandlerSpec.Hostname | mylibrary/src/main/java/com/clearcaptions/cloud/sip/SIPHandler.java:70-74 | a URI without '@' has no host part (indexing the split throws) |
| SipHandlerSpec.Port | mylibrary/src/main/java/com/clearcaptions/cloud/sip/SIPHandler.java:82-91 | a URI without ':' gets the default port 5060 |
| SipHandlerSpec.UriParts | mylibrary/src/main/java/com/clearcaptions/cloud/sip/SIPHandler.java:70-80 | "user@host" splits back into exactly the user and the host |
| SipHandlerSpec.HostKeepsPort | mylibrary/src/main/java/com/clearcaptions/cloud/sip/SIPHandler.java:70-74 | a port written after the host stays part of the host name |
| SipHandlerSpec.PortAfterColon | mylibrary/src/main/java/com/clearcaptions/cloud/sip/SIPHandler.java:82-91 | the decimal of a 32-bit port after the first ':' is read back as that port |
| SipHandlerSpec.NoAtNoContact | mylibrary/src/main/java/com/clearcaptions/cloud/sip/SIPHandler.java:130-138 | a URI without '@' yields no contact: initiateCall throws before registering |
| SipHandlerSpec.Initial | mylibrary/src/main/java/com/clearcaptions/cloud/sip/SIPHandler.java:35-44 | a new handler has sent no INVITE, holds no timer, has no SIP state and has done nothing |
| SipHandlerSpec.RemoteRtcpPort | mylibrary/src/main/java/com/clearcaptions/cloud/sip/SIPHandler.java:298-300 | a stored RTCP port is returned as is; with none, the RTP port + 1 in 32-bit arithmetic (exactly RTP + 1 when that fits) |
| SipHandlerSpec.StopTimerIdempotent | mylibrary/src/main/java/com/clearcaptions/cloud/sip/SIPHandler.java:260-265 | stopping leaves no timer, and stopping twice is stopping once |
| SipHandlerSpec.StopTimerKeepsOrphans | mylibrary/src/main/java/com/clearcaptions/cloud/sip/SIPHandler.java:260-265 | stopping cancels only the timer the field holds, never one it lost |
| SipHandlerSpec.InviteAtMostOnce | mylibrary/src/main/java/com/clearcaptions/cloud/sip/SIPHandler.java:157-170 | the INVITE is marked sent exactly when it was already sent or did not throw; once sent, sendInvite changes nothing |
| SipHandlerSpec.InvitesAppend | mylibrary/src/main/java/com/clearcaptions/cloud/sip/SIPHandler.java:157-170 | the INVITE count of a log is additive over concatenation |
| SipHandlerSpec.OneInviteAfterSuccess | mylibrary/src/main/java/com/clearcaptions/cloud/sip/SIPHandler.java:192-244 | after a sent INVITE, any sequence of further READY events sends no more INVITEs |
| SipHandlerSpec.ReadyInvites | mylibrary/src/main/java/com/clearcaptions/cloud/sip/SIPHandler.java:215-219 | READY records the event, tells the captioner OFFHOOK, sends the INVITE once and starts the invite timer |
| SipHandlerSpec.FailureStates | mylibrary/src/main/java/com/clearcaptions/cloud/sip/SIPHandler.java:207-240 | ERROR, TIMEOUT and INVALID log EP2020 and fail the SIP session (the last two also raise the timeout error); CANCELED cancels the call; BYE ends it |
| SipHandlerSpec.SecondReadyOrphansTimer | mylibrary/src/main/java/com/clearcaptions/cloud/sip/SIPHandler.java:215-219 | a second READY replaces the timer without cancelling the first, so after ESTABLISHED one timer stays scheduled |
| SipHandlerSpec.EstablishedStopsTimer | mylibrary/src/main/java/com/clearcaptions/cloud/sip/SIPHandler.java:202-204 | ESTABLISHED stops the invite timer and tells the captioner nothing |
| SipHandlerSpec.SessionKept | mylibrary/src/main/java/com/clearcaptions/cloud/sip/SIPHandler.java:274-292 | a session event keeps the remote address and ports and reports SESSION_SIP_ESTABLISHED |
| SipHandling.SipHandler.constructor | mylibrary/src/main/java/com/clearcaptions/cloud/sip/SIPHandler.java:35-44 | the new handler's fields are SipHandlerSpec.Initial() |
| SipHandling.SipHandler.Perform | mylibrary/src/main/java/com/clearcaptions/cloud/sip/SIPHandler.java:192-244 | the action is appended and nothing else changes |
| SipHandling.SipHandler.StartTimer | mylibrary/src/main/java/com/clearcaptions/cloud/sip/SIPHandler.java:254-258 | a new timer in the field; one held before stays scheduled, as SipHandlerSpec.StartTimer |
| SipHandling.SipHandler.StopTimer | mylibrary/src/main/java/com/clearcaptions/cloud/sip/SIPHandler.java:260-265 | the fields become SipHandlerSpec.StopTimer of the old ones |
| SipHandling.SipHandler.SendInvite | mylibrary/src/main/java/com/clearcaptions/cloud/sip/SIPHandler.java:157-170 | the fields become SipHandlerSpec.SendInvite of the old ones |
| SipHandling.SipHandler.InitiateCall | mylibrary/src/main/java/com/clearcaptions/cloud/sip/SIPHandler.java:130-138 | it succeeds exactly when the URI gives a contact, then is SipHandlerSpec.InitiateCall; otherwise nothing changes |
| SipHandling.SipHandler.TimerFired | mylibrary/src/main/java/com/clearcaptions/cloud/sip/SIPHandler.java:246-252 | the timeout is logged and the manager put in TIMEOUT |
| SipHandling.SipHandler.InitializeLocalProfile | mylibrary/src/main/java/com/clearcaptions/cloud/sip/SIPHandler.java:140-155 | a local profile with RTP port 5071 and RTCP port 5072 |
| SipHandling.SipHandler.EndCall | mylibrary/src/main/java/com/clearcaptions/cloud/sip/SIPHandler.java:106-125 | fields and the thrown flag are SipHandlerSpec.EndCall of the old fields: the timer stopped, then either the NullPointerException with no manager, or the manager's call ended, the listener removed and the profile unregistered |
| SipHandlerSpec.EndCallNeedsManager | mylibrary/src/main/java/com/clearcaptions/cloud/sip/SIPHandler.java:106-125 | endCall throws exactly when there is no manager; either way the timer is stopped and the contact kept, and only with a manager are the manager's end, the listener removal and the unregistration logged, in that order |
| SipHandlerSpec.ManagerOnlyAfterInitiate | mylibrary/src/main/java/com/clearcaptions/cloud/sip/SIPHandler.java:130-138 | a fresh handler has no manager and its endCall throws; initiateCall succeeds exactly when the URI gives a contact, and then the handler has a manager; otherwise endCall still throws |
| SipHandling.SipHandler.Failed | mylibrary/src/main/java/com/clearcaptions/cloud/sip/SIPHandler.java:207-211 | EP2020 logged with the info and SESSION_SIP_FAILED reported |
| SipHandling.SipHandler.OnReady | mylibrary/src/main/java/com/clearcaptions/cloud/sip/SIPHandler.java:215-219 | OFFHOOK, the INVITE once and the timer started |
| SipHandling.SipHandler.StatusChanged | mylibrary/src/main/java/com/clearcaptions/cloud/sip/SIPHandler.java:192-244 | the fields become SipHandlerSpec.StatusChanged of the old ones |
| SipHandling.SipHandler.SessionChanged | mylibrary/src/main/java/com/clearcaptions/cloud/sip/SIPHandler.java:274-292 | the fields become SipHandlerSpec.SessionChanged of the old ones |
| SipHandling.SipHandler.CallStatusChanged | mylibrary/src/main/java/com/clearcaptions/cloud/sip/SIPHandler.java:268-271 | the call status is recorded with the captioner |
| SipHandling.SipHandler.RemoteRtcpPort | mylibrary/src/main/java/com/clearcaptions/cloud/sip/SIPHandler.java:298-300 | the result is SipHandlerSpec.RemoteRtcpPort of the fields |
| CaptionsSpec.Initial | mylibrary/src/main/java/com/clearcaptions/cloud/captions/Captions.java:21-29 | a new Captions object is not testing, has no call started, no failure, no SIP handler and has done nothing |
| CaptionsSpec.ForwardsAppend | mylibrary/src/main/java/com/clearcaptions/cloud/captions/Captions.java:116-184 | what reaches the application from two stretches of the log is what reaches it from each, in order |
| CaptionsSpec.NoForwards | mylibrary/src/main/java/com/clearcaptions/cloud/captions/Captions.java:116-184 | a stretch of the log with no state handed to the application forwards nothing |
| CaptionsSpec.StartedCallIgnoresRestart | mylibrary/src/main/java/com/clearcaptions/cloud/captions/Captions.java:80-113 | while a call is started, startCall and testCall only set their flags, and repeating them does nothing more |
| CaptionsSpec.CallFlags | mylibrary/src/main/java/com/clearcaptions/cloud/captions/Captions.java:102-113 | startCall clears the test and failure flags, testCall sets the test flag and keeps the failure flag; both leave a started call and the VoIP flag |
| CaptionsSpec.FreshCallBegins | mylibrary/src/main/java/com/clearcaptions/cloud/captions/Captions.java:80-100 | a call that is not started takes the guard, ends and drops a leftover SIP handler, and begins the wizard's test call or call |
| CaptionsSpec.EndCallReleases | mylibrary/src/main/java/com/clearcaptions/cloud/captions/Captions.java:70-78 | endCall ends and drops the SIP handler, ends the wizard's call and releases the guard, whatever the flags |
| CaptionsSpec.SipFailureOutcome | mylibrary/src/main/java/com/clearcaptions/cloud/captions/Captions.java:155-166 | SESSION_SIP_FAILED marks the call failed and shows the application the fixed error text; a test call then ends its test, a real call is ended and released |
| CaptionsSpec.EstablishedOutcome | mylibrary/src/main/java/com/clearcaptions/cloud/captions/Captions.java:144-154 | SESSION_SIP_ESTABLISHED is recorded and forwarded; a test call then ends its test, a real call goes ONLINE with the operator's id; the guard is untouched |
| CaptionsSpec.EndCallForwardsNothing | mylibrary/src/main/java/com/clearcaptions/cloud/captions/Captions.java:70-78 | endCall hands nothing to the application |
| CaptionsSpec.CallEndedOutcome | mylibrary/src/main/java/com/clearcaptions/cloud/captions/Captions.java:168-183 | CALL_ENDED ends the call; after a failure the application is told nothing more, otherwise CALL_ENDED is forwarded; either way the guard is released and the handler gone |
| CaptionsSpec.SilentStates | mylibrary/src/main/java/com/clearcaptions/cloud/captions/Captions.java:117-142 | OFFHOOK, SIPLOCAL and SIPREMOTE never reach the application |
| CaptionsSpec.RoutingOfStates | mylibrary/src/main/java/com/clearcaptions/cloud/captions/Captions.java:173-183 | every other state is forwarded unchanged, and the guard is released exactly for the six failure states |
| CaptionsSpec.SipRemoteStartsSip | mylibrary/src/main/java/com/clearcaptions/cloud/captions/Captions.java:125-139 | SIPREMOTE starts SIP exactly for a started call that is not VoIP, creating a handler only if none exists, then initialising its profile and calling the URI |
| CaptionsSpec.ReleasedHandlerEndedByNextCall | mylibrary/src/main/java/com/clearcaptions/cloud/captions/Captions.java:80-100 | the failure states release the guard but keep the SIP handler, which the next startCall ends before it begins |
| CaptionsApp.Captions.constructor | mylibrary/src/main/java/com/clearcaptions/cloud/captions/Captions.java:21-29 | the new object's flags are CaptionsSpec.Initial() |
| CaptionsApp.Captions.Perform | mylibrary/src/main/java/com/clearcaptions/cloud/captions/Captions.java:116-192 | the action is appended and nothing else changes |
| CaptionsApp.Captions.SetIsVoip | mylibrary/src/main/java/com/clearcaptions/cloud/captions/Captions.java:47-50 | only the VoIP flag changes |
| CaptionsApp.Captions.DropHandler | mylibrary/src/main/java/com/clearcaptions/cloud/captions/Captions.java:72-75 | a leftover SIP handler is ended and dropped |
| CaptionsApp.Captions.EndCall | mylibrary/src/main/java/com/clearcaptions/cloud/captions/Captions.java:70-78 | the fields become CaptionsSpec.EndCall of the old ones |
| CaptionsApp.Captions.DoCall | mylibrary/src/main/java/com/clearcaptions/cloud/captions/Captions.java:80-100 | the fields become CaptionsSpec.DoCall of the old ones |
| CaptionsApp.Captions.StartCall | mylibrary/src/main/java/com/clearcaptions/cloud/captions/Captions.java:102-107 | the fields become CaptionsSpec.StartCall of the old ones |
| CaptionsApp.Captions.TestCall | mylibrary/src/main/java/com/clearcaptions/cloud/captions/Captions.java:109-113 | the fields become CaptionsSpec.TestCall of the old ones |
| CaptionsApp.Captions.NewHandler | mylibrary/src/main/java/com/clearcaptions/cloud/captions/Captions.java:131-134 | with no handler, the event is recorded and a handler created; otherwise nothing changes |
| CaptionsApp.Captions.StartSip | mylibrary/src/main/java/com/clearcaptions/cloud/captions/Captions.java:125-139 | the fields become CaptionsSpec.StartSip of the old ones |
| CaptionsApp.Captions.SipEstablished | mylibrary/src/main/java/com/clearcaptions/cloud/captions/Captions.java:144-154 | the fields become CaptionsSpec.SipEstablished of the old ones |
| CaptionsApp.Captions.SipFailed | mylibrary/src/main/java/com/clearcaptions/cloud/captions/Captions.java:155-166 | the fields become CaptionsSpec.SipFailed of the old ones |
| CaptionsApp.Captions.Release | mylibrary/src/main/java/com/clearcaptions/cloud/captions/Captions.java:173-183 | the guard released and the state forwarded |
| CaptionsApp.Captions.CallEndedState | mylibrary/src/main/java/com/clearcaptions/cloud/captions/Captions.java:168-183 | the fields become CaptionsSpec.CallEndedState of the old ones |
| CaptionsApp.Captions.ProcessState | mylibrary/src/main/java/com/clearcaptions/cloud/captions/Captions.java:116-185 | the fields become CaptionsSpec.ProcessState of the old ones |
| CaptionsApp.Captions.OtherState | mylibrary/src/main/java/com/clearcaptions/cloud/captions/Captions.java:173-183 | the fields become CaptionsSpec.OtherState of the old ones |
| CaptionsApp.Captions.ProcessError | mylibrary/src/main/java/com/clearcaptions/cloud/captions/Captions.java:187-192 | the error is handed to the application unchanged |
| StatusLineSpec.Default | mylibrary/src/main/java/gov/nist/com/clearcaptions/javax/sip/header/StatusLine.java:106-109 | the default line has no reason phrase, version SIP/2.0 and code 0 |
| StatusLineSpec.DecodeEncode | mylibrary/src/main/java/gov/nist/com/clearcaptions/javax/sip/header/StatusLine.java:115-121 | reading an encoded line back gives its code and reason phrase (absent stays absent), whatever its version field says |
| StatusLineSpec.Framing | mylibrary/src/main/java/gov/nist/com/clearcaptions/javax/sip/header/StatusLine.java:115-121 | the encoding is the version and SP, the body, then CRLF, and reading strips exactly those |
| StatusLineSpec.DecodeBodyEncoded | mylibrary/src/main/java/gov/nist/com/clearcaptions/javax/sip/header/StatusLine.java:116-118 | the decimal code followed by SP and the reason reads back as that code and reason |
| StatusLineSpec.EncodeUsesVersionConstant | mylibrary/src/main/java/gov/nist/com/clearcaptions/javax/sip/header/StatusLine.java:115-121 | the encoding always starts with "SIP/2.0 " and ends with CRLF, ignoring the line's own version field |
| StatusLineSpec.LeadingDigitIsClass | mylibrary/src/main/java/gov/nist/com/clearcaptions/javax/sip/header/StatusLine.java:79-84 | the first character of a three-digit code is its class digit |
| StatusLineSpec.ClassMatching | mylibrary/src/main/java/gov/nist/com/clearcaptions/javax/sip/header/StatusLine.java:78-89 | under class matching, three-digit codes match exactly when their classes agree |
| StatusLineSpec.TemplateFlagIgnored | mylibrary/src/main/java/gov/nist/com/clearcaptions/javax/sip/header/StatusLine.java:79 | class matching follows this line's flag; the template's flag plays no part |
| StatusLineSpec.WildcardTemplate | mylibrary/src/main/java/gov/nist/com/clearcaptions/javax/sip/header/StatusLine.java:68-92 | a template with no version, code 0 and no reason matches every line; an object that is not a StatusLine matches none |
| StatusLineSpec.ExactMatching | mylibrary/src/main/java/gov/nist/com/clearcaptions/javax/sip/header/StatusLine.java:76-92 | without class matching, a full template matches exactly the equal version, code and reason phrase |
| StatusLineSpec.MatchAgrees | mylibrary/src/main/java/gov/nist/com/clearcaptions/javax/sip/header/StatusLine.java:68-92 | wherever match() as written returns, the corrected match returns the same; it throws exactly when the version and code match, the template names a reason and this line has none |
| StatusLineSpec.DefaultLineAgainstReasonThrows | mylibrary/src/main/java/gov/nist/com/clearcaptions/javax/sip/header/StatusLine.java:90-92 | a default line against a template naming the reason "OK" throws as written, and does not match once corrected |
| StatusLineSpec.MajorScanNoSlash | mylibrary/src/main/java/gov/nist/com/clearcaptions/javax/sip/header/StatusLine.java:177-188 | characters with no '/' after a closed segment collect nothing |
| StatusLineSpec.MajorScanSegment | mylibrary/src/main/java/gov/nist/com/clearcaptions/javax/sip/header/StatusLine.java:177-188 | after a '/', characters up to a '.' are collected |
| StatusLineSpec.MajorOfVersion | mylibrary/src/main/java/gov/nist/com/clearcaptions/javax/sip/header/StatusLine.java:172-190 | for "a/m.r" with no other '/' the major number is m (null when empty) |
| StatusLineSpec.MinorScanBefore | mylibrary/src/main/java/gov/nist/com/clearcaptions/javax/sip/header/StatusLine.java:201-210 | before the first '.' nothing is collected |
| StatusLineSpec.MinorScanAfter | mylibrary/src/main/java/gov/nist/com/clearcaptions/javax/sip/header/StatusLine.java:201-210 | after the first '.' every character is collected |
| StatusLineSpec.MinorOfVersion | mylibrary/src/main/java/gov/nist/com/clearcaptions/javax/sip/header/StatusLine.java:196-212 | the minor number is everything after the first '.' (null when empty); with no '.' there is none |
| StatusLineSpec.SipTwoPointZero | mylibrary/src/main/java/gov/nist/com/clearcaptions/javax/sip/header/StatusLine.java:172-212 | SIP/2.0 has major number "2" and minor number "0" |
| StatusLines.StatusLine.constructor | mylibrary/src/main/java/gov/nist/com/clearcaptions/javax/sip/header/StatusLine.java:106-109 | the new line's fields are StatusLineSpec.Default() |
| StatusLines.StatusLine.SetMatchStatusClass | mylibrary/src/main/java/gov/nist/com/clearcaptions/javax/sip/header/StatusLine.java:100-102 | only the class-matching flag changes |
| StatusLines.StatusLine.SetSipVersion | mylibrary/src/main/java/gov/nist/com/clearcaptions/javax/sip/header/StatusLine.java:148-150 | only the version changes |
| StatusLines.StatusLine.SetStatusCode | mylibrary/src/main/java/gov/nist/com/clearcaptions/javax/sip/header/StatusLine.java:156-158 | only the status code changes |
| StatusLines.StatusLine.SetReasonPhrase | mylibrary/src/main/java/gov/nist/com/clearcaptions/javax/sip/header/StatusLine.java:164-166 | only the reason phrase changes |
| StatusLines.StatusLine.Encode | mylibrary/src/main/java/gov/nist/com/clearcaptions/javax/sip/header/StatusLine.java:115-121 | the result is the canonical encoding of the fields |
| StatusLines.StatusLine.VersionMajor | mylibrary/src/main/java/gov/nist/com/clearcaptions/javax/sip/header/StatusLine.java:172-190 | the loop yields StatusLineSpec.VersionMajor of the fields |
| StatusLines.StatusLine.VersionMinor | mylibrary/src/main/java/gov/nist/com/clearcaptions/javax/sip/header/StatusLine.java:196-212 | the loop yields StatusLineSpec.VersionMinor of the fields |
| StatusLines.StatusLine.Match | mylibrary/src/main/java/gov/nist/com/clearcaptions/javax/sip/header/StatusLine.java:68-92 | the result is the corrected match of the fields against the object |
| DialogSpec.Value | mylibrary/src/main/java/gov/nist/com/clearcaptions/javax/sip/stack/SIPDialog.java:152-158 | the state codes are -1 for the null state and the DialogState codes otherwise; only null and EARLY are at most 0 |
| DialogSpec.Initial | mylibrary/src/main/java/gov/nist/com/clearcaptions/javax/sip/stack/SIPDialog.java:295-302 | a new dialog has no state, local CSeq 0, remote CSeq -1, no routes, terminate-on-BYE set and no BYE, 2xx or terminated event recorded |
| DialogSpec.SetLocalSequenceNumber | mylibrary/src/main/java/gov/nist/com/clearcaptions/javax/sip/stack/SIPDialog.java:1197-1204 | the number is accepted exactly when it is larger than the current local CSeq, and then only the local CSeq changes |
| DialogSpec.Reverse | mylibrary/src/main/java/gov/nist/com/clearcaptions/javax/sip/stack/SIPDialog.java:443-466 | the result has the input's length with element i taken from position n-1-i |
| DialogSpec.LocalSeqGrows | mylibrary/src/main/java/gov/nist/com/clearcaptions/javax/sip/stack/SIPDialog.java:1589-1789 | an accepted local CSeq is larger; sendRequest never lowers it, stamps the request with the old value plus one, which is the new value, and leaves the dialog unchanged when it refuses the request |
| DialogSpec.ConsumableAfterRemote | mylibrary/src/main/java/gov/nist/com/clearcaptions/javax/sip/stack/SIPDialog.java:799-812 | a non-ACK request is consumable exactly when its CSeq exceeds the last remote CSeq (any CSeq from 0 on a fresh dialog), always under loose validation, and ACK throws |
| DialogSpec.PowerOfTwoDoubles | mylibrary/src/main/java/gov/nist/com/clearcaptions/javax/sip/stack/SIPDialog.java:1794-1805 | helper of DialogSpec.RetransmitStep: twice a power of two is a power of two |
| DialogSpec.RetransmitStep | mylibrary/src/main/java/gov/nist/com/clearcaptions/javax/sip/stack/SIPDialog.java:1794-1805 | below 2^30 ticks of T2 each tick keeps the countdown a power-of-two interval within T2, retransmits exactly when the counter runs out, and then doubles the interval unless that passes T2 |
| DialogSpec.IntervalWrapsAtHugeT2 | mylibrary/src/main/java/gov/nist/com/clearcaptions/javax/sip/stack/SIPDialog.java:1798-1800 | with a T2 of 2^30 ticks the doubled 32-bit interval wraps to Integer.MIN_VALUE |
| DialogSpec.ResetStartsCountdown | mylibrary/src/main/java/gov/nist/com/clearcaptions/javax/sip/stack/SIPDialog.java:1807-1810 | after the reset the countdown is well formed and the next tick retransmits |
| DialogSpec.RetransmitsAfterTicksLeft | mylibrary/src/main/java/gov/nist/com/clearcaptions/javax/sip/stack/SIPDialog.java:1794-1805 | from a well-formed countdown the next retransmission comes within ticksLeft ticks and leaves the countdown well formed |
| DialogSpec.AckConsumesOk | mylibrary/src/main/java/gov/nist/com/clearcaptions/javax/sip/stack/SIPDialog.java:1953-1980 | on an INVITE dialog with a 2xx recorded the first ACK succeeds and consumes it, a second is refused as not established, and CSeq 0 or 2^32 is refused |
| DialogSpec.TerminatedEventOnce | mylibrary/src/main/java/gov/nist/com/clearcaptions/javax/sip/stack/SIPDialog.java:752-756 | the flag is set afterwards and a second test-and-set answers true |
| DialogSpec.OnlyByeAfterBye | mylibrary/src/main/java/gov/nist/com/clearcaptions/javax/sip/stack/SIPDialog.java:1594-1789 | on a terminate-on-BYE dialog a BYE sent ends the dialog, and after it every other request is refused and leaves the dialog unchanged |
| DialogSpec.RouteSetOrder | mylibrary/src/main/java/gov/nist/com/clearcaptions/javax/sip/stack/SIPDialog.java:443-488 | the client's route set is the Record-Route list reversed and the server's keeps its order; reversing the client's gives the list back |
| DialogSpec.IgnoredResponses | mylibrary/src/main/java/gov/nist/com/clearcaptions/javax/sip/stack/SIPDialog.java:2102-2121 | a 100 Trying, and any response to a terminated dialog, leave the dialog as it was |
| DialogSpec.ClientTransitions | mylibrary/src/main/java/gov/nist/com/clearcaptions/javax/sip/stack/SIPDialog.java:2137-2199 | on a client transaction for a dialog-creating method: 1xx moves null to EARLY; a tagged 2xx to the creating method confirms; 300-699 ends a null dialog or an early one for its creating method; a 2xx to INVITE is recorded for the ACK |
| DialogSpec.AdoptKeepsState | mylibrary/src/main/java/gov/nist/com/clearcaptions/javax/sip/stack/SIPDialog.java:2145-2150 | taking the remote tag and routes from a response changes neither the state nor the recorded 2xx |
| DialogSpec.ConfirmedStaysConfirmed | mylibrary/src/main/java/gov/nist/com/clearcaptions/javax/sip/stack/SIPDialog.java:2136-2241 | on the client side a confirmed dialog stays confirmed or is terminated |
| DialogSpec.TerminatedIsFinal | mylibrary/src/main/java/gov/nist/com/clearcaptions/javax/sip/stack/SIPDialog.java:2116-2121 | no sequence of responses changes a terminated dialog |
| DialogSpec.ServerConfirmsOnInviteOk | mylibrary/src/main/java/gov/nist/com/clearcaptions/javax/sip/stack/SIPDialog.java:2296-2307 | on the server side a 2xx to INVITE confirms a null or early dialog |
| Dialogs.SipDialog.constructor | mylibrary/src/main/java/gov/nist/com/clearcaptions/javax/sip/stack/SIPDialog.java:295-302 | the new object's fields are DialogSpec.Initial |
| Dialogs.SipDialog.SetLocalSequenceNumber | mylibrary/src/main/java/gov/nist/com/clearcaptions/javax/sip/stack/SIPDialog.java:1197-1204 | ok exactly when the spec accepts the number; the fields become the spec's dialog, or stay when refused |
| Dialogs.SipDialog.SetRemoteSequenceNumber | mylibrary/src/main/java/gov/nist/com/clearcaptions/javax/sip/stack/SIPDialog.java:1212-1216 | only the remote CSeq changes |
| Dialogs.SipDialog.IncrementLocalSequenceNumber | mylibrary/src/main/java/gov/nist/com/clearcaptions/javax/sip/stack/SIPDialog.java:1223-1225 | only the local CSeq changes, by one |
| Dialogs.SipDialog.IsRequestConsumable | mylibrary/src/main/java/gov/nist/com/clearcaptions/javax/sip/stack/SIPDialog.java:799-812 | the answer is DialogSpec.IsRequestConsumable and nothing changes |
| Dialogs.SipDialog.SetRetransmissionTicks | mylibrary/src/main/java/gov/nist/com/clearcaptions/javax/sip/stack/SIPDialog.java:1807-1810 | the fields become DialogSpec.SetRetransmissionTicks of the old ones |
| Dialogs.SipDialog.ToRetransmitFinalResponse | mylibrary/src/main/java/gov/nist/com/clearcaptions/javax/sip/stack/SIPDialog.java:1794-1805 | fields and answer are DialogSpec.ToRetransmit of the old fields |
| Dialogs.SipDialog.CreateAck | mylibrary/src/main/java/gov/nist/com/clearcaptions/javax/sip/stack/SIPDialog.java:1953-1980 | fields and error are DialogSpec.CreateAck of the old fields |
| Dialogs.SipDialog.TestAndSetTerminatedDelivered | mylibrary/src/main/java/gov/nist/com/clearcaptions/javax/sip/stack/SIPDialog.java:752-756 | fields and answer are DialogSpec.TestAndSetTerminatedDelivered of the old fields |
| Dialogs.SipDialog.SendRequest | mylibrary/src/main/java/gov/nist/com/clearcaptions/javax/sip/stack/SIPDialog.java:1589-1789 | fields, CSeq and error are DialogSpec.SendRequest of the old fields |
| DialogSpec.NotifyNeedsSubscribe | mylibrary/src/main/java/gov/nist/com/clearcaptions/javax/sip/stack/SIPDialog.java:1640-1645 | a NOTIFY before the local tag is refused with the dialog unchanged unless SUBSCRIBE created the dialog, and then its From tag becomes the local tag and it gets the next CSeq |
| DialogSpec.FromTagChecked | mylibrary/src/main/java/gov/nist/com/clearcaptions/javax/sip/stack/SIPDialog.java:1629-1631 | once the dialog has a local tag, a request carrying a From tag is refused as a From-tag mismatch exactly when the tags differ, and stamped with a CSeq exactly when they agree |
| Dialogs.SipDialog.AddRoute | mylibrary/src/main/java/gov/nist/com/clearcaptions/javax/sip/stack/SIPDialog.java:443-488 | the loop leaves only the route set changed, to DialogSpec.RouteSet of the Record-Route list |
| Dialogs.SipDialog.AddRouteFrom | mylibrary/src/main/java/gov/nist/com/clearcaptions/javax/sip/stack/SIPDialog.java:527-578 | the fields become DialogSpec.AddRouteFrom of the old ones |
| Dialogs.SipDialog.SetRemoteTag | mylibrary/src/main/java/gov/nist/com/clearcaptions/javax/sip/stack/SIPDialog.java:1134-1171 | the fields become DialogSpec.SetRemoteTag of the old ones |
| Dialogs.SipDialog.Adopt | mylibrary/src/main/java/gov/nist/com/clearcaptions/javax/sip/stack/SIPDialog.java:2145-2150 | the fields become DialogSpec.Adopt of the old ones |
| Dialogs.SipDialog.ClientCreating | mylibrary/src/main/java/gov/nist/com/clearcaptions/javax/sip/stack/SIPDialog.java:2137-2199 | the fields become DialogSpec.ClientCreating of the old ones |
| Dialogs.SipDialog.ConfirmOn2xx | mylibrary/src/main/java/gov/nist/com/clearcaptions/javax/sip/stack/SIPDialog.java:2165-2186 | a tagged 2xx to the creating method adopts tag and routes and confirms; a 2xx to INVITE is recorded |
| Dialogs.SipDialog.ClientResponse | mylibrary/src/main/java/gov/nist/com/clearcaptions/javax/sip/stack/SIPDialog.java:2136-2241 | the fields become DialogSpec.ClientResponse of the old ones |
| Dialogs.SipDialog.ServerResponse | mylibrary/src/main/java/gov/nist/com/clearcaptions/javax/sip/stack/SIPDialog.java:2242-2315 | the fields become DialogSpec.ServerResponse of the old ones |
| Dialogs.SipDialog.SetLastResponse | mylibrary/src/main/java/gov/nist/com/clearcaptions/javax/sip/stack/SIPDialog.java:2099-2323 | the fields become DialogSpec.SetLastResponse of the old ones |

## Left out

- Sockets, TLS, the OkHttp WebSocket client, threads, the `run` loops and `Thread.sleep`. Their point is I/O and concurrency. Connecting and sending are logged actions, and whether a connect or send fails is a parameter.
- The trust-all `X509TrustManager` at mylibrary/src/main/java/com/clearcaptions/transport/protocol/ProtocolWizard.java:97-109 accepts every server certificate. That is a security defect: the TLS session authenticates nothing. It belongs to connection setup and is not modelled.
- The WAN-loss timer, the SIP invite timer and the dialog's linger, delete and retransmission timer tasks. They run on threads; starting and stopping them are logged actions, and their expiry is an input event.
- Session.GenerateInterval: `Math.random` and `Math.pow` are floating point. The random draw is a parameter in [0, 2^53), and the rounding of the double product is not modelled.
- Wire.Decode: two Java decodings meet here. SendCommand's `new String(data)` (ProtocolWizard.java line 2241) uses the platform charset. ReadThread.insert's `new String(buffer, "UTF-8")` (ReadThread.java line 72) decodes UTF-8. Both are modelled by one decoding that keeps ASCII bytes and maps every other byte to U+FFFD.
- Reader.Frames: the reader's UTF-8 decoding of non-ASCII input is not modelled. A multi-byte UTF-8 sequence in caption text is one character in the source but one U+FFFD per byte in the model, so such packets differ in content and length. Splitting on NUL is unaffected, because a NUL byte never occurs inside a UTF-8 sequence.
- JavaText: `toUpperCase` is modelled on ASCII letters only, because Unicode case mapping can change a string's length.
- JavaText.ParseInt: only the ASCII digits 0-9 are accepted. `Integer.parseInt` uses `Character.digit`, which also accepts the other Unicode decimal digits.
- `callback()` is taken to be non-null, as Captions always installs itself. Callbacks are recorded as events.
- `appVersion()` reads `project.properties`. The user agent is an opaque string.
- The wizard's public wrappers answerCall, ignoreCall, keepAlive, cancelCall, declineCall, makeCall, pickUpCall, startCaptions, updateCall, sendString, sendStatusUpdate and the session* methods (mylibrary/src/main/java/com/clearcaptions/transport/protocol/ProtocolWizard.java:601-870) are not modelled as operations of their own. Each of them only hands one built packet to SendCommand, and Protocol.ProtocolWizard.SendCommand models that for every Command. `processData` belongs to the reader loop.
- `webClient.send` reports failure by its return value. The path that then calls stopCall (mylibrary/src/main/java/com/clearcaptions/transport/protocol/ProtocolWizard.java:2247-2250) is not modelled.
- Captions.endCall overrides the wizard's endCall, so the DISCONNECTED branch of Handlei711State (mylibrary/src/main/java/com/clearcaptions/transport/protocol/ProtocolWizard.java:1043-1049) runs the subclass's version. Session stays within the wizard and uses the wizard's own endCall. CaptionsApp models the override on its own.
- Captions: the constructor's environment settings, `recordEvent` and exceptions thrown from `initiateCall` are not modelled. Neither is the logging call that throws on a null message.
- SipManager: the `SipMessageHandler`, SDP parsing, nonce and realm handling, `getCurrentIP` and the listener objects are opaque. The singleton instance is a boolean `alive`. In the source `statusListeners` is a static list that each new SipManager replaces, and `addStatusListener` silently drops a listener while that list is null. The model keeps one list per manager and always appends.
- CaptionsSpec.EndCall: when the SIP handler's endCall throws for want of a SIP manager, the source leaves Captions.endCall (Captions.java lines 72-74) before `sipHandler = null`, `super.endCall()` and `callStarted(false)`. The Captions model treats the handler's end as completing.
- SipHandlerSpec.SendInvite: sendInvite calls `sipContact.toString()` before its `try` (SIPHandler.java lines 161-162). Without a contact the source throws a NullPointerException out of sendInvite. The model instead logs an INVITE with no contact, and marks it sent unless the send fails.
- Session.Initial: the constructor (ProtocolWizard.java lines 112-140) sets only session, deviceCaps, instructions, appVersion, enterpriseID and callGroup to "". pushToken, deviceID, deviceType, ipAddress, callType, the number to call, callbackNumber, opID and the override token stay null. The model starts them all as "", so a null field is rendered as "" where Java's concatenation writes "null". For example, a registration sent before the setters run carries `deviceID=null||deviceToken=null` in the source and `deviceID=||deviceToken=||` in the model. Likewise, ONLINE before any operator is named reports a null opID in the source and "" in the model.
- SIPDialog: these parts are not modelled:
  - the B2BUA route check at 2213-2226 of the dialog source;
  - the remote target and dialog identifiers;
  - `putDialog`;
  - the server side's 2xx retransmission timer start;
  - the message-channel checks in `sendRequest` ("No route found", "Could not create message channel"), its To-tag warning, and every part of the request other than its method, Call-ID match and From tag;
  - `sendAck` and `createRequest`.
  The SIP stack's `isDialogCreated`, `rfc2543Supported`, `isReInvite` and the transaction kind are parameters.
- StatusLineSpec: `matchExpression` is a regular expression (StatusLine.java lines 73-74). It is not modelled, and the template's expression is taken to be absent.
- `SIP_VERSION_STRING`, `SP` and `NEWLINE` are defined outside this model's files. They are taken as "SIP/2.0", " " and CRLF.

## Findings

| source | as written | input that shows it | evidently intended | confidence | as-written member | corrected member |
|---|---|---|---|---|---|---|
| mylibrary/src/main/java/gov/nist/com/clearcaptions/javax/sip/header/StatusLine.java:90-92 | `match` calls `reasonPhrase.equals(…)` on this line's reason phrase, which is null on a line without one | a default `StatusLine` matched against a template with version and code wildcards and reason phrase "OK" | the line does not match, so match returns false | not executed | StatusLineSpec.DefaultLineAgainstReasonThrows | StatusLineSpec.MatchAgrees |

A documentation discrepancy, not a code defect: the Javadoc of `setMatchStatusClass` (StatusLine.java lines 97-102) says that `true` matches the whole status code and `false` only its class. `match` (lines 79-84) does the reverse: with the flag set it compares only the first digits. The flag it reads is the matched line's own, not the template's. The model follows the code (StatusLineSpec.ClassMatching, StatusLineSpec.ExactMatching, StatusLineSpec.TemplateFlagIgnored).
