# MatterControl printer connection, slice settings and library edit bar

This project models, in Dafny, three parts of MatterControl's desktop program:

- **The printer connection** (`PrinterConnectionAndCommunication`). It covers:
  - the communication state machine and the read-only projections of it (connected, printing, print active, finished);
  - the ring-buffered ledger of numbered, checksummed lines (`CheckSumLines`);
  - the `N<k> <line>*<checksum>` framing;
  - the out-of-band queue of immediate commands and how `SendLineToPrinterNow` slips commands into a running program;
  - `InjectGCode` and the pause block `RequestPause` injects;
  - the writer tick `TryWriteNextLineFromGCodeFile`, with its wait for `ok`, resends, position waits, pause marker and end of print;
  - `Resume`, `Stop`, `CancelPrint`, `ClearQueuedGCode` and the heater and motor commands;
  - the resend request;
  - the reader that cuts received text into lines and runs the connection handshake;
  - `ReadThreadHolder`'s counters.
- **The layered slice settings** (`ActiveSliceSettings`). It covers:
  - reads through the layer stack, and the material fallback;
  - the feature flags and the extruder count;
  - saving into one layer, the uncommitted flag and commits;
  - the two `key = value` settings-file loaders.
- **The print library's edit bar** (`PrintLibraryWidget`). It covers:
  - the table saying which selections each item-operation button accepts;
  - `SetEditButtonsStates`;
  - entering and leaving edit mode, and the provider change.

Layout:

| file | module | contents |
|---|---|---|
| `strings.dfy` | `Strings` | the .NET string operations used (IndexOf, Split, Trim, TryParse, …), with their laws |
| `comm_states.dfy` | `CommStates` | the states, the projections, the state setter |
| `checksum_lines.dfy` | `ChecksumLedger` | the `CheckSumLines` class over a 16-slot array |
| `gcode_text.dfy` | `GCodeText` | clamps, homing, macros, framing, resend parsing, received-text splitting |
| `gcode_queue.dfy` | `GCodeQueue` | the fields sending works on, sending and injecting as functions, and their laws |
| `printer_connection.dfy` | `PrinterComm` | the writer tick, the reader, and the `PrinterConnection` class whose methods update its fields |
| `slice_settings.dfy` | `SliceSettings` | the settings layers, the store and the `ActiveSliceSettings` class |
| `print_library.dfy` | `PrintLibrary` | the edit-bar table, the edit mode and the `PrintLibraryWidget` class |

The connection's methods are proved against specification functions on values:
- `Link` holds the fields sending touches;
- `Others` holds the rest of the connection's fields;
- `Conn` holds both, plus the ledger's lines.

Each method's `ensures` ties the new state to a function of the old state. The lemmas beside those functions state what the source promises.

## Model

Source paths are relative to the repository's `MatterControl` source tree.

| member | source | states |
|---|---|---|
| CommStates.PrinterIsConnected | PrinterCommunication/PrinterConnectionAndCommunication.cs:626-651 | connected exactly in the states other than Disconnected, AttemptingToConnect, ConnectionLost and FailedToConnect |
| CommStates.PrinterIsPrinting | PrinterCommunication/PrinterConnectionAndCommunication.cs:661-686 | printing exactly in Printing and PrintingFromSd; printing implies connected and not paused |
| CommStates.PrintIsActive | PrinterCommunication/PrinterConnectionAndCommunication.cs:729-754 | active exactly while printing, preparing or paused; printing or paused implies active; active implies connected |
| CommStates.PrintIsFinished | PrinterCommunication/PrinterConnectionAndCommunication.cs:756-762 | finished exactly in FinishedPrint; a finished print is connected and no longer active |
| CommStates.SetState | PrinterCommunication/PrinterConnectionAndCommunication.cs:334-431 | setting the current state changes nothing; otherwise the new state is the value |
| CommStates.SetStateBookkeeping | PrinterCommunication/PrinterConnectionAndCommunication.cs:334-431 | a real change raises StateChanged, preceded by PrintFinished when a print finishes; only pausing a print records the pause source, which is the state left; leaving a print stops the print stopwatch; entering Printing from outside a print starts it |
| CommStates.ResumeTarget | PrinterCommunication/PrinterConnectionAndCommunication.cs:1819-1834 | outside a pause Resume stays; from a pause it goes to a printing state |
| CommStates.PauseThenResume | PrinterCommunication/PrinterConnectionAndCommunication.cs:359-381 | pausing a print and resuming it returns to the exact printing state it was in, host or SD |
| ChecksumLedger.SlotOf | PrinterCommunication/PrinterConnectionAndCommunication.cs:3016-3025 | C#'s `%` on the index: the Euclidean remainder for non-negative indices; negative exactly for a negative index that is not a multiple of 16 |
| ChecksumLedger.CheckSumLines.constructor | PrinterCommunication/PrinterConnectionAndCommunication.cs:3006-3014 | a new ledger holds no lines and counts zero |
| ChecksumLedger.CheckSumLines.Get | PrinterCommunication/PrinterConnectionAndCommunication.cs:3016-3025 | the indexer fails exactly on an index leaving a negative remainder, and returns any of the last sixteen lines added exactly |
| ChecksumLedger.CheckSumLines.Add | PrinterCommunication/PrinterConnectionAndCommunication.cs:3028-3031 | the line is appended to the ledger, counted, and read back at the last index; only its slot changes |
| ChecksumLedger.CheckSumLines.Clear | PrinterCommunication/PrinterConnectionAndCommunication.cs:3033-3036 | the ledger is empty and counts zero; the slots keep their contents |
| GCodeText.ClampFanSpeed | PrinterCommunication/PrinterConnectionAndCommunication.cs:504-516 | the speed lies in 0..255, equals an in-range value, and saturates at either end |
| GCodeText.ClampExtruderIndex | PrinterCommunication/PrinterConnectionAndCommunication.cs:1091-1103 | never past the last of 16 extruders; indices up to it are kept, larger ones folded onto it |
| GCodeText.HomeAxisCommand | PrinterCommunication/PrinterConnectionAndCommunication.cs:1110-1128 | the command's words are G28 followed by X0, Y0, Z0 for exactly the requested axes, in that order |
| GCodeText.HomeAllAxes | PrinterCommunication/PrinterConnectionAndCommunication.cs:1110-1128 | homing X, Y and Z, with or without the E flag, is `G28 X0 Y0 Z0` |
| GCodeText.ReplacePrinterMacros | PrinterCommunication/PrinterConnectionAndCommunication.cs:2636-2651 | only the two restore macros are replaced, each by its restore line; any other line is kept |
| GCodeText.Normalized | PrinterCommunication/PrinterConnectionAndCommunication.cs:2105-2107 | the line ApplyExtrusionMultiplier passes on is no longer than the input, has no white space at either end and no lower-case letter |
| GCodeText.NormalizedKeepsText | PrinterCommunication/PrinterConnectionAndCommunication.cs:2105-2107 | that line is the upper case of the text between the white space at the two ends of the input |
| GCodeText.NormalizedIdempotent | PrinterCommunication/PrinterConnectionAndCommunication.cs:2105-2107 | normalizing a normalized line leaves it as it is |
| PrinterComm.ResetLineIsNormalized | PrinterCommunication/PrinterConnectionAndCommunication.cs:2212-2221 | the `M110 S1` reset goes out as written |
| GCodeText.UnframeFrameLine | PrinterCommunication/PrinterConnectionAndCommunication.cs:2846-2867 | a framed line reads back as the number one past the ledger count, the original command (even one containing `*`) and the checksum of the numbered part |
| GCodeText.ParseResend | PrinterCommunication/PrinterConnectionAndCommunication.cs:1346-1360 | a line without a colon gives no request; a request read is a 32-bit integer |
| GCodeText.ParseResendRequest | PrinterCommunication/PrinterConnectionAndCommunication.cs:1346-1360 | the firmware's `Resend:` line, with any white space before the number, reads back as that number |
| GCodeText.CompleteLines | PrinterCommunication/PrinterConnectionAndCommunication.cs:1475-1500 | one line per line feed received, none containing a line feed |
| GCodeText.Remainder | PrinterCommunication/PrinterConnectionAndCommunication.cs:1475-1500 | what is kept for the next read holds no line feed |
| GCodeText.LinesRebuildBuffer | PrinterCommunication/PrinterConnectionAndCommunication.cs:1475-1500 | the lines and the remainder joined by line feeds give back the received text |
| GCodeText.HandshakeAccepts | PrinterCommunication/PrinterConnectionAndCommunication.cs:1526-1531 | a line passes the handshake exactly when it holds fewer than three `?` |
| GCodeQueue.Write | PrinterCommunication/PrinterConnectionAndCommunication.cs:2884-2955 | with a live or connecting link and an open port the text is written and the wait for ok starts; with a live link and no port the state becomes FailedToConnect; nothing is written otherwise, and the program, cursor and queue never change |
| GCodeQueue.Insert | PrinterCommunication/PrinterConnectionAndCommunication.cs:1884-1891 | the line lands at the index, with everything before and after it kept in order |
| GCodeQueue.SendCommand | PrinterCommunication/PrinterConnectionAndCommunication.cs:1862-1912 | a blank command changes nothing; while streaming, the program changes exactly when the next line does not hold the command, and then by inserting it after the cursor; otherwise the queue grows by the command exactly when it differs from the last queued one; forced immediate writes write it |
| GCodeQueue.SendCommandTwice | PrinterCommunication/PrinterConnectionAndCommunication.cs:1862-1912 | sending the same command twice in a row is sending it once, unless it is written immediately |
| GCodeQueue.SendLineSends | PrinterCommunication/PrinterConnectionAndCommunication.cs:1836-1912 | any send (SendLine, built on QueueCommand) keeps the cursor and port; while streaming it only slips lines in after the cursor; otherwise the program is untouched and the queue only grows; the queue stays free of blanks, comments and adjacent repeats |
| GCodeQueue.SendLinesSends | PrinterCommunication/PrinterConnectionAndCommunication.cs:1836-1860 | the same holds for a batch of lines (SendLines) |
| GCodeQueue.SendsFromTrans | PrinterCommunication/PrinterConnectionAndCommunication.cs:1836-1860 | two sends in sequence relate the fields as one send does |
| GCodeQueue.Injected | PrinterCommunication/PrinterConnectionAndCommunication.cs:2377-2406 | a piece yields a program line exactly when its upper-cased command part is not blank |
| GCodeQueue.InjectContiguous | PrinterCommunication/PrinterConnectionAndCommunication.cs:2377-2406 | injecting inside the program (Inject) puts the kept lines (KeptLines) there as one block in their order and moves nothing else |
| GCodeQueue.InjectGrows | PrinterCommunication/PrinterConnectionAndCommunication.cs:2377-2406 | the program grows by exactly the kept lines, at most one per piece |
| GCodeQueue.InjectIntoEmpty | PrinterCommunication/PrinterConnectionAndCommunication.cs:2377-2406 | injected into an empty program the kept lines are the program |
| GCodeQueue.KeptPlainLine | PrinterCommunication/PrinterConnectionAndCommunication.cs:2377-2406 | a plain upper-case command survives injection as itself |
| GCodeQueue.KeptMarker | PrinterCommunication/PrinterConnectionAndCommunication.cs:1787-1800 | the pause marker survives injection as itself |
| GCodeQueue.PauseBlock | PrinterCommunication/PrinterConnectionAndCommunication.cs:1787-1800 | with a pause macro the program gets, as one block in order, the macro, the marker, the resume macro and the restore line |
| GCodeQueue.ResumeBlock | PrinterCommunication/PrinterConnectionAndCommunication.cs:1775-1786 | without a pause macro the restore line lands in front of the resume macro's lines |
| GCodeQueue.InjectAfter | PrinterCommunication/PrinterConnectionAndCommunication.cs:2385-2403 | injecting at or past the end of a program keeps that program in front and adds exactly the kept lines behind it (appended while the program is not longer than the index, inserted at the index after that) |
| GCodeQueue.ResumeBlockPast | PrinterCommunication/PrinterConnectionAndCommunication.cs:1775-1786 | without a pause macro and an index at or past the end, the old program stays in front and the restore and resume lines are added behind it |
| GCodeQueue.PauseBlockPast | PrinterCommunication/PrinterConnectionAndCommunication.cs:1787-1800 | with a pause macro and an index at or past the end, the old program stays in front and the macro, marker, resume and restore lines are added behind it |
| GCodeQueue.MarkerInPausedProgram | PrinterCommunication/PrinterConnectionAndCommunication.cs:1757-1805 | with a pause macro the marker sits right after the macro's lines in PausedProgram, the program a host pause leaves |
| PrinterComm.ReadThreads.constructor | PrinterCommunication/PrinterConnectionAndCommunication.cs:2957-2962 | no reader started, generation zero |
| PrinterComm.ReadThreads.Start | PrinterCommunication/PrinterConnectionAndCommunication.cs:2996-2999 | one more reader running, and it is the current generation |
| PrinterComm.ReadThreads.Join | PrinterCommunication/PrinterConnectionAndCommunication.cs:2991-2994 | every reader started so far stops being current; none is waited for |
| PrinterComm.GateOnOk | PrinterCommunication/PrinterConnectionAndCommunication.cs:2718-2753 | the tick waits only while an ok is awaited inside the program and the printer has not gone quiet; it resends exactly after silence or an overdue move; otherwise it proceeds |
| PrinterComm.SendIfConnected | PrinterCommunication/PrinterConnectionAndCommunication.cs:819-837 | a setter sends its command exactly when the value changed and the printer is connected |
| PrinterComm.SetStateOf | PrinterCommunication/PrinterConnectionAndCommunication.cs:334-431 | the link's state machine is the setter's result |
| PrinterComm.CloseLink | PrinterCommunication/PrinterConnectionAndCommunication.cs:903-937 | the port is closed and the state Disconnected |
| PrinterComm.WithLineEnds | PrinterCommunication/PrinterConnectionAndCommunication.cs:2869-2882 | each queued line is written with CR LF |
| PrinterComm.DrainTakesPrefix | PrinterCommunication/PrinterConnectionAndCommunication.cs:1190-1228 | the idle drain (Drain) takes a prefix of the queue and stops only with an empty queue or an ok awaited |
| PrinterComm.DrainWritesInOrder | PrinterCommunication/PrinterConnectionAndCommunication.cs:1190-1228 | on an open link the drained lines are written in queue order and the state stays |
| PrinterComm.OneLinePerTick | PrinterCommunication/PrinterConnectionAndCommunication.cs:1190-1228 | until the wait runs too long, one queued line per idle tick, and none while an ok is awaited |
| PrinterComm.DoPauseLink | PrinterCommunication/PrinterConnectionAndCommunication.cs:2350-2356 | a running print becomes paused |
| PrinterComm.MarkerFollowsPauseMacro | PrinterCommunication/PrinterConnectionAndCommunication.cs:1757-1805 | after a pause with a pause macro the line after the macro is the marker, which the writer treats as a pause, and the state is unchanged |
| PrinterComm.RequestPauseLinkKeeps | PrinterCommunication/PrinterConnectionAndCommunication.cs:1757-1805 | a pause request keeps the cursor and never shortens the program |
| PrinterComm.ShutDownKeeps | PrinterCommunication/PrinterConnectionAndCommunication.cs:2803-2822 | ending a print (ShutDown) into a non-streaming state moves neither cursor nor program |
| PrinterComm.NextLineLedger | PrinterCommunication/PrinterConnectionAndCommunication.cs:2714-2835 | the ledger grows by at most one line per tick: the line at the cursor, upper-cased and trimmed, numbered one past the ledger, which unframes to that number and text (a law of NextLine, the tick's specification function) |
| PrinterComm.TakeLineLedger | PrinterCommunication/PrinterConnectionAndCommunication.cs:2774-2801 | a line taken from the program is recorded, upper-cased, trimmed and framed, exactly when it is sent (the law of TakeLine and of CommandEffect's Send case; ActionFor decides the case) |
| PrinterComm.NextLineCursor | PrinterCommunication/PrinterConnectionAndCommunication.cs:2714-2835 | the cursor moves by at most one line, and exactly when it is inside the program (0 <= cursor < program length), no resend is pending and no position report is awaited |
| PrinterComm.NextLineAtMarker | PrinterCommunication/PrinterConnectionAndCommunication.cs:2757-2835 | reaching the marker pauses a host print and sends nothing |
| PrinterComm.Aborted | PrinterCommunication/PrinterConnectionAndCommunication.cs:903-937 | an aborted attempt leaves FailedToConnect with the port closed and the reason kept |
| PrinterComm.HandleLine | PrinterCommunication/PrinterConnectionAndCommunication.cs:1496-1541 | every line is handed on; outside a connection attempt the link is untouched |
| PrinterComm.ReadPendingSplits | PrinterCommunication/PrinterConnectionAndCommunication.cs:1475-1543 | the reader (ReadPending) hands on exactly the complete lines received, in order, and keeps the text after the last line feed |
| PrinterComm.ReadPendingKeepsLink | PrinterCommunication/PrinterConnectionAndCommunication.cs:1475-1543 | outside a connection attempt reading never changes the link |
| PrinterComm.ReadPendingHandshake | PrinterCommunication/PrinterConnectionAndCommunication.cs:1475-1543 | while connecting the first complete line connects (and sends the connect G-code) when it has fewer than three `?` and aborts otherwise; with no complete line, more than three `?` abort |
| PrinterComm.PrinterConnection.constructor | PrinterCommunication/PrinterConnectionAndCommunication.cs:143-230 | disconnected, no program, cursor before it, nothing queued or written, empty ledger |
| PrinterComm.PrinterConnection.SetCommunicationState | PrinterCommunication/PrinterConnectionAndCommunication.cs:334-431 | the state machine becomes SetState's result and nothing else changes |
| PrinterComm.PrinterConnection.OnConnectionFailed | PrinterCommunication/PrinterConnectionAndCommunication.cs:1173-1179 | the state becomes FailedToConnect |
| PrinterComm.PrinterConnection.WriteToPrinter | PrinterCommunication/PrinterConnectionAndCommunication.cs:2884-2955 | the fields become Write's result |
| PrinterComm.PrinterConnection.SendLineToPrinterNow | PrinterCommunication/PrinterConnectionAndCommunication.cs:1862-1912 | the fields become SendLine's result, whose laws SendCommand and SendLineSends give |
| PrinterComm.PrinterConnection.SendLinesToPrinterNow | PrinterCommunication/PrinterConnectionAndCommunication.cs:1836-1860 | the fields become SendLines's result: last line first while streaming, first first otherwise |
| PrinterComm.PrinterConnection.SetFanSpeed | PrinterCommunication/PrinterConnectionAndCommunication.cs:504-516 | the fan speed is the clamped value and its M106 is sent when connected |
| PrinterComm.PrinterConnection.SetTargetBedTemperature | PrinterCommunication/PrinterConnectionAndCommunication.cs:819-837 | the target is set; M140 is sent only on a change while connected |
| PrinterComm.PrinterConnection.SetTargetExtruderTemperature | PrinterCommunication/PrinterConnectionAndCommunication.cs:1940-1953 | a negative index changes nothing; otherwise the clamped extruder's target is set and M104 sent only on a change while connected |
| PrinterComm.PrinterConnection.ReadPosition | PrinterCommunication/PrinterConnectionAndCommunication.cs:1586-1589 | M114 is sent |
| PrinterComm.PrinterConnection.ReleaseMotors | PrinterCommunication/PrinterConnectionAndCommunication.cs:1752-1755 | M84 is sent |
| PrinterComm.PrinterConnection.HomeAxis | PrinterCommunication/PrinterConnectionAndCommunication.cs:1110-1128 | the homing command, then M114, are sent |
| PrinterComm.PrinterConnection.TurnOffBedAndExtruders | PrinterCommunication/PrinterConnectionAndCommunication.cs:2837-2842 | the first two extruders and the bed are set to zero, each command sent only if it changed the target |
| PrinterComm.PrinterConnection.PrinterRequestsResend | PrinterCommunication/PrinterConnectionAndCommunication.cs:1346-1360 | a readable request sets the replay point to the line before it; otherwise nothing changes |
| PrinterComm.PrinterConnection.PrintingCanContinue | PrinterCommunication/PrinterConnectionAndCommunication.cs:1420-1426 | the wait for ok stops and nothing else changes |
| PrinterComm.PrinterConnection.WriteChecksumLineToPrinter | PrinterCommunication/PrinterConnectionAndCommunication.cs:2846-2867 | the line, upper-cased and trimmed, is framed one past the ledger, appended to the ledger and written |
| PrinterComm.PrinterConnection.WriteNextLineFromQueue | PrinterCommunication/PrinterConnectionAndCommunication.cs:2869-2882 | the first queued line leaves the queue and is written |
| PrinterComm.PrinterConnection.WriteQueuedLines | PrinterCommunication/PrinterConnectionAndCommunication.cs:1190-1228 | the fields become the idle drain's result |
| PrinterComm.PrinterConnection.ClearQueuedGCode | PrinterCommunication/PrinterConnectionAndCommunication.cs:2212-2221 | no program, cursor 0, a ledger holding only the framed `M110 S1`, which is written, and replay from line one |
| PrinterComm.PrinterConnection.InjectGCode | PrinterCommunication/PrinterConnectionAndCommunication.cs:2377-2406 | only the program changes, to Inject's result; the index returned is past the lines added |
| PrinterComm.PrinterConnection.DoPause | PrinterCommunication/PrinterConnectionAndCommunication.cs:2350-2356 | a running print becomes paused |
| PrinterComm.PrinterConnection.RequestPause | PrinterCommunication/PrinterConnectionAndCommunication.cs:1757-1805 | no print: no change; SD print: paused and M25 sent; host print: a negative index changes nothing, an index inside the program gets the pause block there (PausedProgram), and an index past the end keeps the old program in front with exactly the block's lines behind it; without a pause macro the print is paused |
| PrinterComm.PrinterConnection.TryWriteNextLineFromGCodeFile | PrinterCommunication/PrinterConnectionAndCommunication.cs:2714-2835 | a waiting tick changes nothing; otherwise the replay point steps back on a forced resend and the state becomes NextLine's result, whose Send case frames the upper-cased, trimmed line |
| PrinterComm.PrinterConnection.Resume | PrinterCommunication/PrinterConnectionAndCommunication.cs:1819-1834 | outside a pause nothing changes; a paused print returns to the state it was paused from, and an SD print is restarted with M24 |
| PrinterComm.PrinterConnection.DonePrintingSdFile | PrinterCommunication/PrinterConnectionAndCommunication.cs:2334-2348 | FinishedPrint, heaters off, motors released |
| PrinterComm.PrinterConnection.CancelPrint | PrinterCommunication/PrinterConnectionAndCommunication.cs:2065-2080 | the queue is cleared, the cancel macro's lines become the program, and the print is marked canceled |
| PrinterComm.PrinterConnection.CancelSDCardPrint | PrinterCommunication/PrinterConnectionAndCommunication.cs:2082-2095 | the program is cleared, M25 and M26 sent, and the print finished with heaters off and motors released |
| PrinterComm.PrinterConnection.Stop | PrinterCommunication/PrinterConnectionAndCommunication.cs:1999-2051 | the outcome per state: SD and host prints canceled, paused ones canceled and left connected or running the cancel macro, a connection attempt abandoned with its reader retired, preparation ended, anything else unchanged |
| PrinterComm.PrinterConnection.ClosePort | PrinterCommunication/PrinterConnectionAndCommunication.cs:903-937 | the port closed, Disconnected, the reader retired when asked |
| PrinterComm.PrinterConnection.AbortConnectionAttempt | PrinterCommunication/PrinterConnectionAndCommunication.cs:903-937 | the port is closed, the reason kept, the state is FailedToConnect, and the reader is retired when asked |
| PrinterComm.PrinterConnection.ReceiveChunk | PrinterCommunication/PrinterConnectionAndCommunication.cs:1470-1543 | carriage returns become line feeds and the state becomes ReadPending's result, whose laws ReadPendingSplits and ReadPendingHandshake give |
| PrinterComm.PrinterConnection.TakeCompleteLines | PrinterCommunication/PrinterConnectionAndCommunication.cs:1476-1543 | the loop leaves no line feed pending and does what ReadPending does |
| PrinterComm.PrinterConnection.StartPrint | PrinterCommunication/PrinterConnectionAndCommunication.cs:1955-1975 | only a connected printer that is not printing starts: queue and program cleared, the file's lines the program, preparation becoming Printing |
| PrinterComm.PrinterConnection.LoadedProgram | PrinterCommunication/PrinterConnectionAndCommunication.cs:2440-2479 | the file becomes the program; preparation becomes Printing; any other state stays |
| SliceSettings.ActiveValue | SlicerConfiguration/ActiveSliceSettings.cs:535-549 | the value in the top-most layer defining the key, or "Unknown" when none does |
| SliceSettings.ValueMeans | SlicerConfiguration/ActiveSliceSettings.cs:535-549 | a read gives a value other than "Unknown" exactly when the top-most defining layer holds it |
| SliceSettings.TopLayerExists | SlicerConfiguration/ActiveSliceSettings.cs:535-549 | a key some layer defines has a top-most layer defining it |
| SliceSettings.SettingExistsInLayer | SlicerConfiguration/ActiveSliceSettings.cs:557-570 | a key exists in a layer exactly when the index is inside the stack and that layer holds the key |
| SliceSettings.ExistsInTopLayerIsActive | SlicerConfiguration/ActiveSliceSettings.cs:557-570 | a key in the top layer is what a read returns; a key in no layer reads as "Unknown" |
| SliceSettings.FeatureOn | SlicerConfiguration/ActiveSliceSettings.cs:228-318 | each flag is on exactly when the top-most layer defining its setting holds "1" |
| SliceSettings.IsMakerbotGCodeFlavor | SlicerConfiguration/ActiveSliceSettings.cs:253-256 | on exactly when the flavour setting reads "makerbot" |
| SliceSettings.ExtruderCount | SlicerConfiguration/ActiveSliceSettings.cs:481-494 | a 32-bit count; one when no layer defines it |
| SliceSettings.UnknownIsNotANumber | SlicerConfiguration/ActiveSliceSettings.cs:481-494 | "Unknown" does not parse as a number |
| SliceSettings.SavedVisibility | SlicerConfiguration/ActiveSliceSettings.cs:728-752 | a saved value is what reads return unless a higher layer defines the key, and then reads are unchanged |
| SliceSettings.SavedExtruderCount | SlicerConfiguration/ActiveSliceSettings.cs:728-752 | a count saved as text in the top layer reads back |
| SliceSettings.SaveEffect | SlicerConfiguration/ActiveSliceSettings.cs:728-752 | the layer maps the key to the value, nothing else changes, the store is uncommitted and its hash reset (the law of Save) |
| SliceSettings.SaveTwiceNotices | SlicerConfiguration/ActiveSliceSettings.cs:71-85 | a second save raises only SettingsChanged |
| SliceSettings.CommitIdempotent | SlicerConfiguration/ActiveSliceSettings.cs:754-761 | a commit (Commit) lowers the flag, keeps the layers, notifies only on a change, and a second commit does nothing |
| SliceSettings.ReadIniLine | SlicerConfiguration/ActiveSliceSettings.cs:666-672 | comments are exactly the lines starting with `#`; a non-comment without `=` is malformed |
| SliceSettings.ReadKeyValue | SlicerConfiguration/ActiveSliceSettings.cs:666-672 | `key=value` reads as the trimmed key and the trimmed value up to any further `=` |
| SliceSettings.LoadedKeepsGathered | SlicerConfiguration/ActiveSliceSettings.cs:657-693 | a successful load had no malformed line and keeps what was already gathered |
| SliceSettings.LoadedEntries | SlicerConfiguration/ActiveSliceSettings.cs:657-693 | a successful load maps every entry's key to its value |
| SliceSettings.LoadedKeysFromFile | SlicerConfiguration/ActiveSliceSettings.cs:657-693 | a successful load holds nothing but the file's entries |
| SliceSettings.LoadConfigurationSettingsFromFile | SlicerConfiguration/ActiveSliceSettings.cs:657-693 | the loop builds the layer LoadedLayer defines: none for a missing file, a malformed line or a repeated key |
| SliceSettings.UnsavedEntryIsEntry | SlicerConfiguration/ActiveSliceSettings.cs:695-726 | the unsaved loader takes exactly the lines the strict loader reads as entries, with the same key and value |
| SliceSettings.SavedEntriesShape | SlicerConfiguration/ActiveSliceSettings.cs:695-726 | the unsaved load (LoadUnsaved) changes only layer 1 and leaves the store uncommitted exactly when there was an entry |
| SliceSettings.SavedEntriesLastWins | SlicerConfiguration/ActiveSliceSettings.cs:695-726 | each key ends with its last entry's value; keys no entry names are untouched |
| SliceSettings.UnsavedWithoutEntries | SlicerConfiguration/ActiveSliceSettings.cs:695-726 | with no entry the load changes nothing |
| SliceSettings.ActiveSliceSettings.constructor | SlicerConfiguration/ActiveSliceSettings.cs:100-102 | the given layers, committed, no notices |
| SliceSettings.ActiveSliceSettings.GetActiveValue | SlicerConfiguration/ActiveSliceSettings.cs:535-549 | the top-down search returns ActiveValue |
| SliceSettings.ActiveSliceSettings.GetMaterialValue | SlicerConfiguration/ActiveSliceSettings.cs:162-197 | the material layer's value when it defines the key, else the top-most of the quality, base and default layers, else "Unknown" |
| SliceSettings.ActiveSliceSettings.SetHasUncommittedChanges | SlicerConfiguration/ActiveSliceSettings.cs:71-85 | the flag is set, with a notice only on a change |
| SliceSettings.ActiveSliceSettings.OnSettingsChanged | SlicerConfiguration/ActiveSliceSettings.cs:92-97 | the hash is reset and SettingsChanged raised |
| SliceSettings.ActiveSliceSettings.SaveValue | SlicerConfiguration/ActiveSliceSettings.cs:728-752 | the store becomes Save's result |
| SliceSettings.ActiveSliceSettings.CommitChanges | SlicerConfiguration/ActiveSliceSettings.cs:754-761 | the store becomes Commit's result |
| SliceSettings.ActiveSliceSettings.LoadConfigurationSettingsFromFileAsUnsaved | SlicerConfiguration/ActiveSliceSettings.cs:695-726 | a missing file changes nothing; otherwise every entry line is saved into layer 1 |
| PrintLibrary.EditBarTable | Library/PrintLibraryWidget.cs:324-426 | six item-operation buttons |
| PrintLibrary.TableAcceptance | Library/PrintLibraryWidget.cs:336-422 | only "Add to Queue" accepts protected items; only "Remove" and "Add to Queue" accept several; only "Share" depends on the provider |
| PrintLibrary.TableOnSelection | Library/PrintLibraryWidget.cs:505-559 | with a protected item selected only "Add to Queue" is enabled; with several selected only "Remove" and "Add to Queue" can be |
| PrintLibrary.EditModeToggles | Library/PrintLibraryWidget.cs:456-477 | entering and leaving keep what is shown consistent with the mode; leaving after entering restores the bar; each toggle is idempotent |
| PrintLibrary.PrintLibraryWidget.constructor | Library/PrintLibraryWidget.cs:89-201 | out of edit mode, with the table's buttons; adding and folder creation disabled and the search panel hidden until the first provider change (:156, :269, :279) |
| PrintLibrary.PrintLibraryWidget.SetEditButtonsStates | Library/PrintLibraryWidget.cs:505-559 | each button's state is the enable rule applied to the selection; nothing else changes |
| PrintLibrary.PrintLibraryWidget.EnterEditMode | Library/PrintLibraryWidget.cs:456-463 | the bar enters edit mode; nothing else changes |
| PrintLibrary.PrintLibraryWidget.DoLeaveEditMode | Library/PrintLibraryWidget.cs:465-477 | the bar leaves edit mode; nothing else changes |
| PrintLibrary.PrintLibraryWidget.LibraryProviderChanged | Library/PrintLibraryWidget.cs:220-248 | a protected provider disables adding and folders, hides search and leaves edit mode; any other enables and shows them |
| PrintLibrary.EnabledStateFor | Library/PrintLibraryWidget.cs:511-555 | one button's loop pass computes the enable rule |
| PrintLibrary.LowerForProtected | Library/PrintLibraryWidget.cs:522-532 | the state survives only if no selected item is protected |
| PrintLibrary.LowerForCollections | Library/PrintLibraryWidget.cs:534-545 | the state survives only if no selected item is a collection |

## Left out

- Serial I/O is not modelled. The port is the `portOpen` flag, and what is written is the `output` log. Reads arrive as text chunks passed to ReceiveChunk.
- The reader's thread and its loop condition are left out. So are its event callbacks: `ReadLine`, the resend and `ok` handlers, and the unconditional echo. Lines handed on are logged in `linesRead`.
- Stopwatches and timers are not modelled. "Elapsed too long" tests are boolean parameters, and "is running" tests are boolean fields. The OnIdle timer is not modelled: WriteQueuedLines is one call of its drain.
- Floating point is not modelled. That covers ExtrusionRatio, FeedRateRatio, position tracking (KeepTrackOfPostionAndDestination) and the restore lines' formatting: the two restore lines are parameters.
- Temperatures are whole degrees.
- Print leveling is not modelled, so RunPrintLevelingTranslations passes lines unchanged.
- WriteChecksumLineToPrinter, CommandEffect: of ApplyExtrusionMultiplier, only the upper-casing and trimming are modelled (Normalized). Rewriting the E value of G0 and G1 lines and tracking the extrusion position need floating point, so they are left out. ApplyFeedRateMultiplier and KeepTrackOfPostionAndDestination are also floating point and pass lines unchanged.
- Strings.ToUpper, Strings.UpperChar: only the ASCII letters a to z are upper-cased. .NET's ToUpper follows the current culture and maps letters beyond ASCII too. Every member built on ToUpper has this gap: ActionFor, Injected and KeptLines (InjectGCode), Normalized, and through them NextLine, TakeLine, WriteChecksumLineToPrinter and TryWriteNextLineFromGCodeFile.
- GCodeFile.CalculateChecksum is a function parameter of the connection.
- ReplaceMacroValues (settings substituted into macro text) is not applied: injected macros keep their text.
- Slice settings the connection reads are parameters: connect, pause, resume and cancel G-code.
- PrintTask records, MarkActivePrintCanceled, printJobDisplayName, SetDetailedPrintingState and the event handlers raised are not modelled. The state setter keeps its events as a log; the settings store keeps its notices as a log.
- Exceptions become "no change":
  - a negative extruder index;
  - a negative injection index;
  - a ledger index whose remainder is negative (Get returns None);
  - a writer tick (NextLine, WriteNextLine) with the cursor before the program. Instruction(-1) throws in the source; the model leaves the connection as it was.
  - A null ledger slot is modelled as the empty string.
- SliceSettings.ActiveSliceSettings.SaveValue: requires a layer index inside the stack, where the source throws.
- SliceSettings.SettingExistsInLayer takes a natural-number layer index. A negative index throws in the source.
- A slice setting is reduced to its value. Its SettingsCollectionId and the per-layer database writes of CommitChanges (CommitLayerChanges) are left out.
- The material layer is a parameter. The settings file's contents are `Option<seq<string>>`, where None means a missing file.
- StartPrint takes the loaded file's lines. Loading runs on a worker in the source; its completion is LoadedProgram.
- StartSdCardPrint, ConnectToActivePrinter, AttemptToConnect and the rest of the repository are not part of this model.
- The widget's layout, images and event wiring are left out. A button the table does not describe is taken as enabled.
- RequestPause: past the program's end, only which lines are added is stated, as a multiset. Their order is not stated. InjectGCode appends each line while the program is not longer than the index, last piece first, and inserts at the index after that, so the lines do not form the ordered block that PausedProgram describes.

Where the code and its documentation differ, the model follows the code:
- Without a pause macro, RequestPause injects the resume lines and then the restore line at the same index. The restore line therefore ends up before the resume lines (ResumeBlock).
- The handshake accepts a line with fewer than three `?` characters. It aborts on more than three `?` only while no line feed has arrived.
