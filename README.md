# rimokun core in Dafny

rimokun drives a gantry robot with two tool-changing arms. The robot has six
Oriental Motor AR-KD2 stepper drivers on a Modbus RTU link, a Contec digital
I/O board, and a serial control panel with three joysticks. A Qt GUI watches
the robot and sends it commands. This project models the logic at the heart
of that system and proves properties of the model:

- The AR-KD2 register-list scanner (`parse_ar_kd2_register_map.py`), modelled
  as an imperative scan proved equal to a pure specification. Around it are
  the two lookup tables in the server: the full register map the scanner
  generates, and the alarm, warning and communication-error code tables.
- Modbus RTU framing, as in section 6.2.2 of the MODBUS over Serial Line
  Specification V1.02 and sections 6.1-6.6, 6.11, 6.12 and 7 of the MODBUS
  Application Protocol Specification V1.1b3. This covers the CRC-16, the
  request frames, reply decoding, exceptions and the parameter checks of the
  RTU-over-TCP backend.
- The motor driver's register logic. This covers the operation-id bits of the
  driver-input word, single input flags, 32-bit values over two registers, the
  double-buffered speed update and the alarm reset. The bus is a map from
  register address to word.
- The machine loop's tick and update schedule.
- The control panel's line validation, baseline, moving averages and button
  debounce, together with its serial transport settings and transport factory.
- The command queue, the command processor and the machine controller.
- The control policies, the status builder, the component service, and the
  machine's signal mapping, per-cycle cache and shutdown.
- The GUI's JSON and YAML adapters, the status view model, the connection
  store and the motor-statistics view.

The model follows the system's own form. Code that updates objects in place
becomes Dafny classes whose methods are proved against specification
functions: the queue, the loop runner, the panel, the status builder, the
machine, the controller, the component service, the GUI store and the Modbus
client. Pure code becomes functions with lemmas. Each module sits in a file
named after the source file it models. `wrappers.dfy` holds Option and
Result. `common.dfy` holds the shared enumerations, the robot status and the
JSON and YAML trees.

Three behaviours of the code are worth knowing in advance, and the model
keeps them:

- The placeholder name of a nameless register is "UNKNOWN_" followed by the
  upper-cased hex line, trailing H included.
- A three-digit line always starts a record. It is never skipped as noise.
- The component service reports a component that comes back in Warning as
  unsuccessful.

## Model

| member | source | states |
|---|---|---|
| RegisterParser.Strip | Server/scripts/parse_ar_kd2_register_map.py:62 | the stripped line neither starts nor ends with a whitespace character (Python's `isspace` set) |
| RegisterParser.Words | Server/scripts/parse_ar_kd2_register_map.py:102 | `split()` gives non-empty words without whitespace |
| RegisterParser.UpperAscii | Server/scripts/parse_ar_kd2_register_map.py:104 | `upper()` keeps the length and maps exactly the lower-case ASCII letters to upper case |
| RegisterParser.Prepare | Server/scripts/parse_ar_kd2_register_map.py:62 | one prepared line per text line |
| RegisterParser.PreparedLine | Server/scripts/parse_ar_kd2_register_map.py:62 | the k-th prepared line is the k-th text line, stripped and classified |
| RegisterParser.Collect | Server/scripts/parse_ar_kd2_register_map.py:77-100 | the name-collection loop ends at a cursor between its start and the end of the input |
| RegisterParser.InsertKey | Server/scripts/parse_ar_kd2_register_map.py:114 | inserting a decimal keeps the key list ascending and adds exactly that decimal |
| RegisterParser.SortedDecs | Server/scripts/parse_ar_kd2_register_map.py:114 | `sorted(by_dec)` is ascending and holds exactly the keys of `by_dec` |
| RegisterParser.RowsOf | Server/scripts/parse_ar_kd2_register_map.py:114 | one record per key, in key order, carrying that key's address and name |
| RegisterParser.CollectName | Server/scripts/parse_ar_kd2_register_map.py:76-100 | the inner while loop stops where the collection function does, with the same fragments |
| RegisterParser.ScanEntries | Server/scripts/parse_ar_kd2_register_map.py:57-106 | the scanning loop appends exactly the raw records of the text |
| RegisterParser.KeepLongestPerDec | Server/scripts/parse_ar_kd2_register_map.py:108-114 | the `by_dec` loop and the final comprehension give the deduplicated list |
| RegisterParser.ParseRegisters | Server/scripts/parse_ar_kd2_register_map.py:56-114 | `parse_registers_from_text` returns the deduplicated raw records |
| RegisterParserFacts.HexValueBound | Server/scripts/parse_ar_kd2_register_map.py:106 | a string of e hexadecimal digits denotes less than 16^e |
| RegisterParserFacts.DecValueBound | Server/scripts/parse_ar_kd2_register_map.py:66 | a string of e decimal digits denotes less than 10^e |
| RegisterParserFacts.RecordValueBounds | Server/scripts/parse_ar_kd2_register_map.py:19-20 | a record's decimal is below 100000 and its address below 65536 |
| RegisterParserFacts.ThreeDigitLineIsDecimal | Server/scripts/parse_ar_kd2_register_map.py:83-95 | the `\d{3}` skip is unreachable: such a line already matches `NUM_RE` and stops collection |
| RegisterParserFacts.NameWellFormed | Server/scripts/parse_ar_kd2_register_map.py:102-104 | a record's name is never empty and is normalised; it is the collapsed join of the fragments, or `UNKNOWN_` and the upper-cased hex line |
| RegisterParserFacts.PreparedWell | Server/scripts/parse_ar_kd2_register_map.py:23-53 | every prepared line's classification agrees with `_is_header`, `_is_setting_line` and the two regular expressions |
| RegisterParserFacts.CollectParts | Server/scripts/parse_ar_kd2_register_map.py:77-100 | collection only appends: held fragments stay and every new one is the text of a line it passed |
| RegisterParserFacts.CollectFragments | Server/scripts/parse_ar_kd2_register_map.py:77-100 | every gathered fragment is a non-blank, non-header, non-number line; only the last may end in "(upper)"/"(lower)"; no later fragment is a setting line |
| RegisterParserFacts.StopMeans | Server/scripts/parse_ar_kd2_register_map.py:83-92 | the loop stops in front of a line exactly when it is a number, or a setting line once a fragment is held |
| RegisterParserFacts.CollectStops | Server/scripts/parse_ar_kd2_register_map.py:77-100 | collection ends at the end of input, in front of a stopping line, after a blank line that follows a fragment, or after a half-register fragment |
| RegisterParserFacts.ClassifySettingLine | Server/scripts/parse_ar_kd2_register_map.py:90-92 | a setting line that is not page furniture starts a name but ends one that is under way |
| RegisterParserFacts.ScanSound | Server/scripts/parse_ar_kd2_register_map.py:60-106 | every raw record starts at a decimal line directly followed by a hex line, with that decimal and address |
| RegisterParserFacts.ScanLinesSound | Server/scripts/parse_ar_kd2_register_map.py:60-106 | the same, stated on the text lines themselves: each raw record's decimal and address come from a decimal line and the hex line right after it |
| RegisterParserFacts.ByDecWinner | Server/scripts/parse_ar_kd2_register_map.py:108-112 | `by_dec` holds a decimal iff a raw record has it, and keeps the earliest record among those with the longest name |
| RegisterParserFacts.DedupCorrect | Server/scripts/parse_ar_kd2_register_map.py:108-114 | the result lists each decimal once, ascending, with its earliest longest-named record |
| RegisterParserFacts.DedupDecs | Server/scripts/parse_ar_kd2_register_map.py:114 | the result holds exactly the decimals of the raw records |
| RegisterParserFacts.ParseRegistersCorrect | Server/scripts/parse_ar_kd2_register_map.py:56-114 | the whole parser: unique ascending decimals, addresses below 65536, normalised non-empty names, each from a decimal/hex line pair of the text |
| RegisterParserFacts.ScanComplete | Server/scripts/parse_ar_kd2_register_map.py:60-106 | the scan skips nothing that starts a record: from any cursor, the first decimal line followed by a hex line yields the next raw record, with that decimal, address and collected name |
| RegisterParserFacts.ScanNothing | Server/scripts/parse_ar_kd2_register_map.py:60-106 | text with no decimal line followed by a hex line yields no record |
| RegisterParserFacts.ParseRegistersComplete | Server/scripts/parse_ar_kd2_register_map.py:56-114 | the first decimal/hex line pair of the text is the first raw record, and its decimal appears in the parser's output |
| RegisterParserFacts.DedupOfAscending | Server/scripts/parse_ar_kd2_register_map.py:108-114 | a list with strictly ascending decimals comes out of deduplication unchanged |
| RegisterParserFacts.DedupIdempotent | Server/scripts/parse_ar_kd2_register_map.py:108-114 | deduplicating twice gives what deduplicating once gives |
| ArKd2FullRegisterMap.FindName | Server/src/ArKd2FullRegisterMap.cpp:386-391 | the front-to-back scan returns the name of the first row at the address, or nothing |
| ArKd2FullRegisterMap.RegisterName | Server/src/ArKd2FullRegisterMap.cpp:385-392 | `arKd2RegisterName` is that lookup over the whole table |
| ArKd2FullRegisterMap.LookupSpec | Server/src/ArKd2FullRegisterMap.cpp:385-392 | the lookup finds nothing iff no row carries the address; otherwise it names the first row that does |
| ArKd2FullRegisterMap.AscendingLookup | Server/src/ArKd2FullRegisterMap.cpp:385-392 | in an ascending table, looking up a row's address yields that row's name |
| ArKd2FullRegisterMap.BelowFirstAbsent | Server/src/ArKd2FullRegisterMap.cpp:385-392 | in an ascending table, an address below the first row is absent |
| ArKd2FullRegisterMap.FullRegisterMapAscending | Server/src/ArKd2FullRegisterMap.cpp:5-378 | the table has 372 rows with strictly ascending, hence unique, addresses |
| ArKd2FullRegisterMap.AddressesInRange | Server/src/ArKd2FullRegisterMap.cpp:6-377 | the first row is 0x0030 "Group (upper)", the last is 0x1203, and every address lies between |
| ArKd2FullRegisterMap.RegisterNameOfEveryRow | Server/src/ArKd2FullRegisterMap.cpp:381-392 | every row is found by its own address |
| ArKd2FullRegisterMap.RegisterNameExamples | Server/src/ArKd2FullRegisterMap.cpp:9-12 | 0x007D is "Driver input command (lower)", 0x0080 is "Present alarm (upper)", 0x0001 is absent |
| ArKd2Diagnostics.FindIn | Server/src/ArKd2Diagnostics.cpp:147-156 | `findIn` returns the first entry with the code, an entry of the table with that code, and nothing iff no entry has it |
| ArKd2Diagnostics.FindAlarm | Server/src/ArKd2Diagnostics.cpp:159-161 | searches the alarm table |
| ArKd2Diagnostics.FindWarning | Server/src/ArKd2Diagnostics.cpp:163-165 | searches the warning table |
| ArKd2Diagnostics.FindCommunicationError | Server/src/ArKd2Diagnostics.cpp:167-170 | searches the communication-error table |
| ArKd2Diagnostics.FindCode | Server/src/ArKd2Diagnostics.cpp:172-183 | searches exactly the table of the given domain |
| ArKd2Diagnostics.DomainName | Server/src/ArKd2Diagnostics.cpp:185-195 | each domain is named "alarm", "warning" or "communication error" |
| ArKd2Diagnostics.LookupSpec | Server/src/ArKd2Diagnostics.cpp:147-156 | the lookup finds nothing iff no entry has the code; otherwise the first entry that does |
| ArKd2Diagnostics.AscendingLookup | Server/src/ArKd2Diagnostics.cpp:147-156 | in an ascending table, a row's code yields that row |
| ArKd2Diagnostics.BelowFirstAbsent | Server/src/ArKd2Diagnostics.cpp:147-156 | in an ascending table, a code below the first is absent |
| ArKd2Diagnostics.AlarmCodesAscending | Server/src/ArKd2Diagnostics.cpp:8-97 | the alarm table has 35 rows with ascending codes |
| ArKd2Diagnostics.WarningCodesAscending | Server/src/ArKd2Diagnostics.cpp:99-124 | the warning table has 10 rows with ascending codes |
| ArKd2Diagnostics.CommunicationErrorCodesAscending | Server/src/ArKd2Diagnostics.cpp:126-145 | the communication-error table has 6 rows with ascending codes |
| ArKd2Diagnostics.TableAscending | Server/src/ArKd2Diagnostics.cpp:8-145 | each domain's table has its size (35, 10, 6) and ascending codes |
| ArKd2Diagnostics.CodeMatchesAtMostOneEntry | Server/src/ArKd2Diagnostics.cpp:8-145 | within one table a code names at most one row |
| ArKd2Diagnostics.FindCodeSpec | Server/src/ArKd2Diagnostics.cpp:172-183 | a lookup in any domain returns an entry of that table with the code, and nothing iff none has it |
| ArKd2Diagnostics.EveryEntryFound | Server/src/ArKd2Diagnostics.cpp:147-183 | every entry of every table is found by its own code |
| ArKd2Diagnostics.CodeOneAbsent | Server/src/ArKd2Diagnostics.cpp:8-145 | code 0x01 is in none of the tables |
| ArKd2Diagnostics.AlarmOvercurrent | Server/src/ArKd2Diagnostics.cpp:15-16 | alarm 0x20 is found as "Overcurrent", with a cause and a remedy |
| ArKd2Diagnostics.AlarmPositionDeviation | Server/src/ArKd2Diagnostics.cpp:9-10 | alarm 0x10 is found as "Excessive position deviation" |
| ArKd2Diagnostics.WarningOverspeed | Server/src/ArKd2Diagnostics.cpp:114-115 | warning 0x31 is found as "Overspeed" |
| ArKd2Diagnostics.WarningPositionDeviation | Server/src/ArKd2Diagnostics.cpp:100-101 | warning 0x10 is found as "Excessive position deviation" |
| ArKd2Diagnostics.CommunicationErrorOutOfRange | Server/src/ArKd2Diagnostics.cpp:139-140 | communication error 0x8C is found as "Outside setting range" |
| ArKd2Diagnostics.CommunicationErrorRs485 | Server/src/ArKd2Diagnostics.cpp:127-128 | communication error 0x84 is found as "RS-485 communication error" |
| ArKd2Diagnostics.DomainNamesDistinct | Server/src/ArKd2Diagnostics.cpp:185-195 | the three domains have three different names |
| CommandInterface.CommandQueue.constructor | Server/include/CommandInterface.hpp:80-81 | a new queue is empty and not shut down |
| CommandInterface.CommandQueue.Push | Server/include/CommandInterface.hpp:42-50 | a push is accepted iff the queue is not shut down, and only then appends the command at the back |
| CommandInterface.CommandQueue.TryPop | Server/include/CommandInterface.hpp:61-69 | returns nothing iff the queue is empty; otherwise removes and returns the front command |
| CommandInterface.CommandQueue.PopWaitFor | Server/include/CommandInterface.hpp:52-59 | after the wait, the front of the queue (with the pushes accepted meanwhile) is taken, or nothing if it is still empty |
| CommandInterface.CommandQueue.Shutdown | Server/include/CommandInterface.hpp:71-75 | raises the flag and keeps every queued command |
| CommandInterface.CommandQueue.Drain | Server/src/Machine.cpp:578-582 | popping until empty hands out exactly the queued commands, in order |
| CommandInterface.ShutdownKeepsQueuedCommands | Server/include/CommandInterface.hpp:42-75 | commands queued before a shutdown are still popped in order; a push after it is refused |
| CommandInterface.ShutdownIsIdempotent | Server/include/CommandInterface.hpp:42-75 | for any queued commands, shutting down twice leaves the queue as shutting down once does: a later push is refused and draining hands out exactly the queued commands, in order |
| Common.FindByName | Utilities/include/JsonExtensions.hpp:26-33 | the value found carries the text as its name; nothing is found only when no value has that name |
| Common.FindByNameOfName | Utilities/include/JsonExtensions.hpp:19-33 | with distinct names, reading back a value's name gives that value |
| Common.ParseArm | Utilities/include/JsonExtensions.hpp:26-33 | `stringToEnum<EArm>` accepts exactly the arm names, and otherwise fails with "Invalid enum value: " and the text |
| Common.ParseAction | Utilities/include/JsonExtensions.hpp:26-33 | the same for tool-changer actions |
| Common.ParseComponent | Utilities/include/JsonExtensions.hpp:26-33 | the same for robot components |
| Common.ParseMotor | Utilities/include/JsonExtensions.hpp:26-33 | the same for motors |
| Common.ArmNameRoundTrip | Utilities/include/JsonExtensions.hpp:19-33 | `stringToEnum(enumToString(a)) == a` for arms |
| Common.ActionNameRoundTrip | Utilities/include/JsonExtensions.hpp:19-33 | the same for actions |
| Common.ComponentNameRoundTrip | Utilities/include/JsonExtensions.hpp:19-33 | the same for components |
| Common.MotorNameRoundTrip | Utilities/include/JsonExtensions.hpp:19-33 | the same for motors |
| Common.NamesAreCaseSensitive | Utilities/include/JsonExtensions.hpp:26-33 | lower-cased constant names are refused |
| ControlLoop.Clock.SleepUntil | Server/src/ControlLoopRunner.cpp:31-33 | sleeping moves the clock to the target, never backwards |
| ControlLoop.ControlLoopRunner.constructor | Server/src/ControlLoopRunner.cpp:7-10 | the runner keeps its clock and its two intervals |
| ControlLoop.ControlLoopRunner.MakeInitialState | Server/src/ControlLoopRunner.cpp:12-20 | loop and update due now, the duty log one second on, initialized, no samples |
| ControlLoop.ControlLoopRunner.RunOneCycle | Server/src/ControlLoopRunner.cpp:22-73 | the cycle's new state, the callbacks it invokes and the clock afterwards are those of the cycle specification |
| ControlLoop.AdvancePast | Server/src/ControlLoopRunner.cpp:42-44 | the do-while loop stops at the first whole interval step after the present |
| ControlLoop.NextAfterSpec | Server/src/ControlLoopRunner.cpp:42-44 | the advanced deadline lies after both the present and the old deadline, a positive whole number of intervals on, and is the first such point |
| ControlLoop.CycleSteps | Server/src/ControlLoopRunner.cpp:36-45 | control then command, each once; update at most once and exactly when due; the update deadline then moves past the present by whole intervals, and otherwise stays |
| ControlLoop.CycleReschedulesTick | Server/src/ControlLoopRunner.cpp:64-72 | the next tick lies after the end of the work, a whole number of loop intervals after the previous tick, and is the first such point |
| ControlLoop.SleepsOnlyWhenEarly | Server/src/ControlLoopRunner.cpp:30-34 | the steps start at the tick when the clock is early, and at once otherwise |
| ControlLoop.UninitializedStartsFresh | Server/src/ControlLoopRunner.cpp:26-28 | an uninitialized state behaves as the initial state for the present time |
| ControlLoop.QuietCycle | Server/src/ControlLoopRunner.cpp:22-73 | a cycle entered on time whose steps take no time runs at its tick, moves the tick on by one interval, and updates (moving the update on by one period) exactly when due |
| ControlLoop.RunIsQuiet | Server/src/ControlLoopRunner.cpp:22-73 | a run of such cycles invokes exactly the steps of the quiet schedule, whatever the duty-log deadline |
| ControlLoop.QuietStepsCount | Server/src/ControlLoopRunner.cpp:36-45 | in n such cycles control and command run n times each and the update as often as its deadline comes due |
| ControlLoop.ThrottledUpdates | tests/unit/server/MachineLoopTests.cpp:234-250 | with a 10 ms tick and 50 ms updates, twelve cycles run control and command twelve times and the update three times |
| ControlLoop.OverrunResynchronizes | tests/unit/server/MachineLoopTests.cpp:255-268 | a 25 ms control step at a 10 ms tick moves the next tick to 30 ms, and after a second such cycle to 60 ms |
| Panel.WordLength | Server/src/ControlPanel.cpp:133-140 | a word is a maximal run of non-space characters |
| Panel.Words | Server/src/ControlPanel.cpp:133-140 | the words read by `>>` are non-empty and hold no white space |
| Panel.WordsOfUnwords | Server/src/ControlPanel.cpp:133-140 | splitting words joined by spaces gives the same words back |
| Panel.WordsAppend | Server/src/ControlPanel.cpp:133-140 | the words of a line, a space and more text are the line's words followed by those of the text |
| Panel.LeadingDigitsSpec | Server/src/ControlPanel.cpp:148-150 | `std::stoi` reads the longest run of digits after the white space it skips |
| Panel.Stoi | Server/src/ControlPanel.cpp:148-150 | a value `std::stoi` returns fits an `int`; out-of-range and non-numeric text is refused |
| Panel.DigitsValueOfNatText | Server/src/ControlPanel.cpp:148-150 | the decimal text of a natural number has that value |
| Panel.StoiOfNatText | Server/src/ControlPanel.cpp:148-150 | `std::stoi` reads back the decimal text of any natural number that fits an `int` |
| Panel.StoiIgnoresTrailingText | Server/src/ControlPanel.cpp:148-150 | text after the digits does not change what `std::stoi` reads |
| Panel.StoiTrailingTextExample | Server/src/ControlPanel.cpp:148-150 | "12ab" reads as 12 |
| Panel.StoiReadsSign | Server/src/ControlPanel.cpp:148-150 | "-7" reads as -7 |
| Panel.StoiRefusesNonNumbers | Server/src/ControlPanel.cpp:148-150 | "abc" and a lone "-" are refused |
| Panel.ParseLine | Server/src/ControlPanel.cpp:132-162 | an accepted line gives three readings; a line of fewer than nine words is refused |
| Panel.ExtraWordsIgnored | Server/src/ControlPanel.cpp:133-140 | only the first nine words decide whether and how a line is read |
| Panel.ReadingAtOfWords | Server/src/ControlPanel.cpp:147-158 | a joystick whose three words are in-range decimal texts reads as those values |
| Panel.ParseLineOfLineText | Server/src/ControlPanel.cpp:132-162 | any three readings with axes in 0..1023, written as the panel's line, read back as the same readings |
| Panel.InvalidJoystickRefusesLine | Server/src/ControlPanel.cpp:151-154 | one out-of-range or non-numeric joystick makes the whole line refused |
| Panel.ValidJoysticksReadLine | Server/src/ControlPanel.cpp:146-158 | three readable joysticks make the line accepted with their readings |
| Panel.ReadLine | Server/src/ControlPanel.cpp:132-162 | the reading half of `processLine` returns exactly what the line specification gives |
| Panel.ReadTokens | Server/src/ControlPanel.cpp:146-162 | the reading loop over the nine words returns what the word specification gives |
| Panel.ReadJoystick | Server/src/ControlPanel.cpp:148-157 | one pass of the loop gives joystick `i`'s reading, or none |
| Panel.SumAppend | Server/src/ControlPanel.cpp:187-188 | adding a sample at the back adds it to the sum |
| Panel.PushSampleKeepsWindow | Server/src/ControlPanel.cpp:186-199 | after a push the window holds the newest samples up to the depth, ends in the new one, and its running sum equals its sum |
| Panel.Debounce | Server/src/ControlPanel.cpp:214-228 | the pending count stays below the threshold |
| Panel.DebounceKeepsAgreement | Server/src/ControlPanel.cpp:214-228 | the debouncer's pending value and count always describe the run of samples at the end of what it has seen |
| Panel.DebounceFlipsOnlyAfterRun | Server/src/ControlPanel.cpp:214-228 | the stable value changes only after `threshold` samples in a row carry the new value; a sample equal to the stable value clears the run |
| Panel.RunFlipsStable | Server/src/ControlPanel.cpp:218-227 | enough differing samples in a row do change the stable value |
| Panel.StaysAfterFlip | Server/src/ControlPanel.cpp:214-216 | samples equal to the stable value never change it |
| Panel.ClipToUnitRange | Server/src/ControlPanel.cpp:318-320 | the clamped value lies in -1..1 and values already there are kept |
| Panel.AxisOutput | Server/src/ControlPanel.cpp:201-209 | the published axis lies in -1..1 and is 0 until the baseline is ready |
| Panel.StepChannelKeepsValid | Server/src/ControlPanel.cpp:164-229 | an accepted line keeps each channel's windows, sums and debouncer valid |
| Panel.FilterKeepsValid | Server/src/ControlPanel.cpp:184-229 | filtering a reading keeps the channel valid |
| Panel.BaselineReadyAfterSamples | Server/src/ControlPanel.cpp:164-182 | the baseline becomes ready after exactly `baselineSamples` accepted lines and the count then stops |
| Panel.ParseLineTerminator | Server/src/ControlPanel.cpp:243-257 | the escapes "\\n", "\\r" and "\\0" name their control characters, the empty text means a newline, and a one-character text names its own character |
| Panel.ParseLineTerminatorRoundTrip | Server/src/ControlPanel.cpp:243-257 | every character can be configured as the terminator and reads back as itself |
| Panel.EndKeptSpec | Server/src/ControlPanel.cpp:83-86 | the trailing loop cuts exactly the line-end characters at the end |
| Panel.StartCutSpec | Server/src/ControlPanel.cpp:87-90 | the leading loop cuts exactly the line-end characters at the start |
| Panel.SanitizeLine | Server/src/ControlPanel.cpp:82-91 | the two loops compute the sanitized line |
| Panel.SanitizedLineSpec | Server/src/ControlPanel.cpp:82-91 | the sanitized line is a piece of the line with no line end at either edge, all that was cut is line ends, and a clean line is kept |
| Panel.ControlPanel.constructor | Server/src/ControlPanel.cpp:13-37 | each optional setting takes its default when absent and is at least 1; the signal state starts reset |
| Panel.ControlPanel.ResetSignalProcessingState | Server/src/ControlPanel.cpp:297-316 | empty windows, zero outputs and accumulators, baselines at 512, debouncers released, count 0, not ready |
| Panel.ControlPanel.ProcessLine | Server/src/ControlPanel.cpp:132-231 | a refused line changes nothing; an accepted line feeds the baseline and then filters each joystick's reading |
| Panel.ControlPanel.FeedBaselines | Server/src/ControlPanel.cpp:164-182 | the accumulators, count and readiness move as the baseline specification says |
| Panel.ControlPanel.FilterChannels | Server/src/ControlPanel.cpp:184-230 | each channel is filtered with its reading; the baseline is unchanged |
| Panel.ControlPanel.HandleLine | Server/src/ControlPanel.cpp:93-104 | a delivered line is sanitized, skipped when empty or refused, and processed otherwise |
| Panel.ControlPanel.Snapshot | Server/src/ControlPanel.cpp:233-241 | three readings whose axes lie in -1..1, are 0 before the baseline is ready, and whose buttons are the stable values |
| Panel.AtLeastOne | Server/src/ControlPanel.cpp:26-33 | a setting if given, else its default, and never below 1 |
| SerialComm.AsString | Server/src/SerialControlPanelComm.cpp:33 | a scalar converts to its text and a null node to "null"; maps and sequences are refused |
| SerialComm.AsSettingName | Server/src/SerialControlPanelComm.cpp:34-47 | a setting converts exactly from a scalar whose text is one of the serial library's names for that setting, and keeps that text; anything else is a bad conversion |
| SerialComm.AsCount | Server/src/SerialControlPanelComm.cpp:48-52 | a count converts only from a scalar, to a value that fits in `size_t`; every failure is a bad conversion |
| SerialComm.DecimalNumeralValue | Server/src/SerialControlPanelComm.cpp:48-52 | decimal digits are read as the control panel reads them |
| SerialComm.NatTextLead | Server/src/SerialControlPanelComm.cpp:48-52 | the decimal text of a positive number does not start with 0, so it is not read as octal |
| SerialComm.AsCountOfNatText | Server/src/SerialControlPanelComm.cpp:48-52 | the decimal text of any count up to `size_t`'s maximum converts back to that count |
| SerialComm.DigitsNotTrimmed | Server/src/SerialControlPanelComm.cpp:48-52 | trimming the trailing white space leaves a run of digits unchanged |
| SerialComm.AsCountOctal | Server/src/SerialControlPanelComm.cpp:48-52 | a leading 0 followed by octal digits converts to their octal value |
| SerialComm.AsCountHex | Server/src/SerialControlPanelComm.cpp:48-52 | "0x" followed by hexadecimal digits converts to their hexadecimal value |
| SerialComm.AsCountRefusesMinus | Server/src/SerialControlPanelComm.cpp:48-52 | a text with a leading '-' is a bad conversion, whatever follows |
| SerialComm.AsCountOctalExample | Server/src/SerialControlPanelComm.cpp:48-52 | "010" is 8 |
| SerialComm.AsCountHexExample | Server/src/SerialControlPanelComm.cpp:48-52 | "0x10" is 16 |
| SerialComm.AsCountBadOctalExample | Server/src/SerialControlPanelComm.cpp:48-52 | "08" is a bad conversion |
| SerialComm.RequireNode | Server/src/SerialControlPanelComm.cpp:20-27 | the child under the key when it exists, else the error naming the key |
| SerialComm.OptionalName | Server/src/SerialControlPanelComm.cpp:35-47 | an absent setting takes its default; a present one is converted |
| SerialComm.ReadTimeout | Server/src/SerialControlPanelComm.cpp:48-52 | the timeout is at least 1, 200 when absent, and a conversion error is an error |
| SerialComm.Configure | Server/src/SerialControlPanelComm.cpp:13-57 | a built transport has a read timeout of at least 1 ms |
| SerialComm.ConfigureSerial | Server/src/SerialControlPanelComm.cpp:20-56 | the same, for the `serial` entry itself |
| SerialComm.ConfigureErrors | Server/src/SerialControlPanelComm.cpp:13-57 | the constructor fails only for a missing `serial` map, a missing `port` or `baudRate`, or a value that does not convert: a non-scalar, an unknown setting name or a malformed count |
| SerialComm.MissingSerialMapRejected | Server/src/SerialControlPanelComm.cpp:14-18 | without a `serial` map the constructor fails with that error |
| SerialComm.MissingRequiredKeyRejected | Server/src/SerialControlPanelComm.cpp:20-34 | a missing `port` is reported first, then a missing `baudRate` |
| SerialComm.UnknownBaudRateRejected | Server/src/SerialControlPanelComm.cpp:34 | a baud rate that is not one of the library's names is refused as a bad conversion |
| SerialComm.DefaultsApply | Server/src/SerialControlPanelComm.cpp:35-56 | with only `port` and `baudRate` every other setting takes its default: 8 bits, no flow control, no parity, one stop bit, 200 ms, line feed |
| SerialComm.ReadTimeoutAtLeastOne | Server/src/SerialControlPanelComm.cpp:48-52 | a configured timeout of 0 becomes 1 and any other count is kept |
| SerialComm.Describe | Server/src/SerialControlPanelComm.cpp:128-130 | the description is "serial(" then the port then ")" |
| SerialComm.DescribeNamesPort | Server/src/SerialControlPanelComm.cpp:128-130 | the port can be read back from the description |
| SerialComm.DescribeOfConfigured | Server/src/SerialControlPanelComm.cpp:13-33 | a configured transport describes itself with the configured port |
| SerialComm.ParseLineTerminator | Server/src/SerialControlPanelComm.cpp:132-146 | the same reading of a terminator setting: the three escapes, a newline for the empty text, a one-character text as itself |
| SerialComm.SameTerminatorAsPanel | Server/src/SerialControlPanelComm.cpp:132-146 | the transport reads terminators exactly as the control panel does |
| CommFactory.LowerChar | Server/src/ControlPanelCommFactory.cpp:13 | only 'A'..'Z' change, each to its lower-case letter |
| CommFactory.MakeControlPanelComm | Server/src/ControlPanelCommFactory.cpp:18-37 | a transport is built only when `type` is a scalar that lowers to "serial", and it is then the serial transport configured from the same node |
| CommFactory.ToLower | Server/src/ControlPanelCommFactory.cpp:11-15 | the lowered text has the same length and each character lowered |
| CommFactory.ToLowerIdempotent | Server/src/ControlPanelCommFactory.cpp:11-15 | lowering twice is lowering once, and text without capitals is unchanged |
| CommFactory.TypeMustBeScalar | Server/src/ControlPanelCommFactory.cpp:20-24 | a missing or non-scalar `type`, and only such a type, is refused with the missing-type error |
| CommFactory.TypeIsCaseInsensitive | Server/src/ControlPanelCommFactory.cpp:25-34 | "serial" and the three TCP names are recognised in any case; an unsupported type is refused quoting it as written |
| CommFactory.MixedCaseSerialSelected | Server/src/ControlPanelCommFactory.cpp:26-29 | "SeRiAl" builds the serial transport |
| CommFactory.UnsupportedQuotesType | Server/src/ControlPanelCommFactory.cpp:35-36 | the unsupported-transport error quotes the type exactly as written |
| ModbusRtu.ShiftOnce | Server/include/ModbusClient.hpp:462-465 | one pass of the inner loop is one shift of the CRC register |
| ModbusRtu.Crc16 | Server/include/ModbusClient.hpp:457-468 | the loops compute the CRC that starts at 0xFFFF and feeds each byte through eight shifts with polynomial 0xA001 |
| ModbusRtu.WithCrc | Server/include/ModbusClient.hpp:470-474 | the frame is kept and two bytes follow; a non-empty frame with its CRC passes the CRC check |
| ModbusRtu.JoinSplit | Server/include/ModbusClient.hpp:730-732 | a 16-bit value is its high and low bytes joined again |
| ModbusRtu.CheckEndpoint | Server/include/ModbusClient.hpp:76-90 | the endpoint is accepted exactly when the host is non-empty, the port in 1..65535 and the slave in 0..247, and an empty host is reported first |
| ModbusRtu.WordBytes | Server/include/ModbusClient.hpp:765-768 | two bytes per value |
| ModbusRtu.WordBytesJoin | Server/include/ModbusClient.hpp:765-768 | each value is its two payload bytes joined again |
| ModbusRtu.RegisterPayload | Server/include/ModbusClient.hpp:765-768 | the loop pushes each value high byte first |
| ModbusRtu.SetBit | Server/include/ModbusClient.hpp:833 | or-ing in bit k sets bit k and leaves the other bits |
| ModbusRtu.ZeroBits | Server/include/ModbusClient.hpp:830 | a zeroed byte has no bit set |
| ModbusRtu.SetCoil | Server/include/ModbusClient.hpp:833 | setting bit i % 8 of byte i / 8 sets coil i and no other |
| ModbusRtu.PackCoils | Server/include/ModbusClient.hpp:830-835 | the data block carries coil i at bit i % 8 of byte i / 8, in ⌈n/8⌉ bytes |
| ModbusRtu.VariableResponse | Server/include/ModbusClient.hpp:646-681 | an accepted frame is the first 5 + byteCount bytes received, names the slave and the function and passes the CRC check; an exception or a wrong slave id is an error |
| ModbusRtu.FixedResponseAsWritten | Server/include/ModbusClient.hpp:683-704 | an accepted reply is the eight bytes received, naming the slave and the function, with a good CRC |
| ModbusRtu.FixedResponse | Server/include/ModbusClient.hpp:683-704 | the same, and a reply marked as an exception is always an error |
| ModbusRtu.RegistersOf | Server/include/ModbusClient.hpp:727-733 | one register per requested count |
| ModbusRtu.BitsOf | Server/include/ModbusClient.hpp:793-798 | one bit per requested count |
| ModbusRtu.RegistersReply | Server/include/ModbusClient.hpp:723-735 | a register reply is accepted exactly when the variable-length read accepts it and its byte count is twice the count; it then yields one register per count, and a failed read passes its error on |
| ModbusRtu.BitsReplyAsWritten | Server/include/ModbusClient.hpp:791-799 | as written: an accepted bit reply came through the variable-length read and yields one coil per count; every reply whose byte count matches the count is accepted; a failed read passes its error on |
| ModbusRtu.BitsReply | Server/include/ModbusClient.hpp:791-799 | the corrected bit read: accepted exactly when the variable-length read accepts the reply and its byte count is ⌈count/8⌉; then one coil per count; a failed read passes its error on |
| ModbusRtu.DecodeRegisters | Server/include/ModbusClient.hpp:727-733 | the loop joins bytes 3 + 2i and 4 + 2i into register i |
| ModbusRtu.DecodeBits | Server/include/ModbusClient.hpp:793-798 | the loop takes coil i from bit i % 8 of byte 3 + i / 8 |
| ModbusRtu.RtuOverTcpClient.constructor | Server/include/ModbusClient.hpp:87-89 | the client keeps the checked endpoint and starts with no inter-request delay |
| ModbusRtu.RtuOverTcpClient.SetSlave | Server/include/ModbusClient.hpp:191-205 | the slave id changes exactly when it is in 0..247, and the call fails otherwise |
| ModbusRtu.RtuOverTcpClient.SetInterRequestDelay | Server/include/ModbusClient.hpp:182-189 | a negative delay is refused and changes nothing; any other is stored |
| ModbusRtu.RtuOverTcpClient.ReadRegisters | Server/include/ModbusClient.hpp:706-735 | a count outside 1..125 sends nothing; otherwise the 8-byte request with its CRC is sent and the reply decoded with its byte count checked |
| ModbusRtu.RtuOverTcpClient.WriteSingleRegister | Server/include/ModbusClient.hpp:737-749 | the request is slave, 0x06, address, value with its CRC; the call succeeds exactly when the eight-byte reply read as written is accepted, and otherwise fails with that read's error |
| ModbusRtu.RtuOverTcpClient.WriteMultipleRegisters | Server/include/ModbusClient.hpp:751-773 | 1..123 values; the request carries the count, byte count 2n and the big-endian values, with its CRC; success and error follow the eight-byte reply read as written |
| ModbusRtu.RtuOverTcpClient.ReadBits | Server/include/ModbusClient.hpp:775-800 | a count outside 1..2000 sends nothing; otherwise the request is sent and the coils are taken from the reply's data block as written: the byte count is not compared with the count, only reads past the frame fail |
| ModbusRtu.RtuOverTcpClient.WriteSingleCoil | Server/include/ModbusClient.hpp:802-815 | the coil travels as 0xFF00 when on and 0x0000 when off; success and error follow the eight-byte reply read as written |
| ModbusRtu.RtuOverTcpClient.WriteMultipleCoils | Server/include/ModbusClient.hpp:817-840 | 1..1968 coils; the request carries the count, byte count ⌈n/8⌉ and the packed coils, with its CRC; success and error follow the eight-byte reply read as written |
| ModbusRtuFacts.ShiftsEight | Server/include/ModbusClient.hpp:460-464 | eight shifts of the CRC register unrolled |
| ModbusRtuFacts.TrailerClears | Server/include/ModbusClient.hpp:470-474 | feeding a CRC its own two bytes, low byte first, leaves zero |
| ModbusRtuFacts.CrcResidue | Server/include/ModbusClient.hpp:470-474 | the CRC of any frame followed by its CRC is zero |
| ModbusRtuFacts.ValidCrcIffAppended | Server/include/ModbusClient.hpp:476-484 | a frame passes the CRC check exactly when it is a frame of at least one byte followed by its CRC |
| ModbusRtuFacts.TrailerOfJoin | Server/include/ModbusClient.hpp:480-483 | the received CRC bytes read back as the low and high byte |
| ModbusRtuFacts.CrcKnownAnswer | Server/include/ModbusClient.hpp:457-474 | "read one holding register at 0 from slave 1" carries the CRC bytes 0x84 0x0A |
| ModbusRtuFacts.VariableAccepted | Server/include/ModbusClient.hpp:646-681 | a well-formed reply with its CRC is returned whole by the variable-length read, whatever follows it |
| ModbusRtuFacts.RegistersRoundTrip | Server/include/ModbusClient.hpp:706-735 | a well-formed register reply decodes to the registers it carries |
| ModbusRtuFacts.RegistersOfWords | Server/include/ModbusClient.hpp:727-733 | decoding big-endian payload bytes gives back the values |
| ModbusRtuFacts.WordAt | Server/include/ModbusClient.hpp:730-731 | the bytes of register i sit at 3 + 2i and 4 + 2i |
| ModbusRtuFacts.BitsRoundTrip | Server/include/ModbusClient.hpp:775-800 | a well-formed bit reply decodes to the coils its data block packs, both as written and with the byte count checked |
| ModbusRtuFacts.BitsOfPacked | Server/include/ModbusClient.hpp:793-798 | decoding a packed block gives back the coils |
| ModbusRtuFacts.ExceptionReported | Server/include/ModbusClient.hpp:658-666 | an exception reply with a good CRC is reported with its code in two upper-case hexadecimal digits |
| ModbusRtuFacts.FixedEcho | Server/include/ModbusClient.hpp:683-704 | the echo of a single-write request is accepted |
| ModbusRtuFacts.BitsByteCountUnchecked | Server/include/ModbusClient.hpp:791-799 | as written, a reply with one data byte for sixteen coils is accepted and the low CRC byte's bits come back as coils 8 to 15 |
| ModbusRtuFacts.FixedExceptionLost | Server/include/ModbusClient.hpp:689-702 | as written, the five-byte exception reply to a write is lost as a failed eight-byte read |
| ModbusRtuFacts.FixedAgreesOnSuccess | Server/include/ModbusClient.hpp:683-704 | the eight-byte read as written and the corrected read accept the same replies and return the same frame; they differ only in the error reported |
| ModbusRtuFacts.BitsAgreeOnMatchingCount | Server/include/ModbusClient.hpp:775-800 | whenever the byte count matches the coils asked for, the bit read as written returns what the corrected read returns |
| MotorBits.ValueOfBits | Server/src/Motor.cpp:558-569 | a number below 2^n is the value of its n low bits |
| MotorBits.BitsOfValue | Server/src/Motor.cpp:558-569 | the bits of the value of a bit sequence are that sequence |
| MotorBits.BitsDetermine | Server/src/Motor.cpp:558-569 | two numbers below 2^n with the same n bits are equal |
| MotorBits.WordOf | Server/src/Motor.cpp:586-607 | the word built from sixteen bits has exactly those bits |
| MotorBits.HasOr | Server/src/Motor.cpp:594 | bit q of the bitwise or of a and b is bit q of a or of b |
| MotorBits.HasAndNot | Server/src/Motor.cpp:586 | bit q of a & ~m is bit q of a when m lacks it, else clear |
| MotorBits.HasBit | Server/src/Motor.cpp:594 | 1 << p has bit p and no other |
| MotorBits.WithBitExact | Server/src/Motor.cpp:490-497 | setting or clearing a flag changes exactly its bit: that bit becomes the requested value and every other bit is kept |
| MotorBits.WordsEqual | Server/src/Motor.cpp:583-608 | words with the same sixteen bits are equal |
| MotorBits.WithBitIdempotent | Server/src/Motor.cpp:446-498 | setting or clearing a flag twice is the same as doing it once |
| MotorBits.FlagBit | Server/src/Motor.cpp:52-69 | each driver input has its own bit below 16, never the unused bit 7 |
| MotorBits.FlagBitInjective | Server/src/Motor.cpp:52-69 | distinct inputs have distinct bits |
| MotorBits.FallbackFlag | Server/src/Motor.cpp:937-957 | each known function code falls back on an input's fixed bit, never FREE or S-START; other codes have none |
| MotorBits.FallbackInjective | Server/src/Motor.cpp:937-957 | distinct function codes fall back on distinct inputs |
| MotorBits.FirstFrom | Server/src/Motor.cpp:929-933 | the lowest index at or after i holding the code, or none exactly when there is no such index |
| MotorBits.FirstIndex | Server/src/Motor.cpp:929-933 | the lowest index holding the code, or none exactly when no index holds it |
| MotorBits.NetInputBit | Server/src/Motor.cpp:924-935 | none while no assignments are loaded; otherwise the lowest channel assigned the code |
| MotorBits.CodeBit | Server/src/Motor.cpp:964-971 | a code's bit, its channel or its fallback, lies below 16 |
| MotorBits.OpBit | Server/src/Motor.cpp:959-974 | every operation-select code has a bit, its channel when assigned, else its fixed input |
| MotorBits.OpPositions | Server/src/Motor.cpp:959-974 | six bit positions, one per operation-id bit |
| MotorBits.FallbackPositions | Server/src/Motor.cpp:937-957 | without assignments the operation id lives in M0..M2 (bits 0..2) and MS0..MS2 (bits 8..10), all distinct |
| MotorBits.MappedDistinct | Server/src/Motor.cpp:959-974 | with every operation-select code assigned to a NET-IN channel, the six positions are distinct |
| MotorBits.OpMask | Server/src/Motor.cpp:602-607 | 1 << k as a byte has bit k and no other |
| MotorBits.OrByte | Server/src/Motor.cpp:981 | bit i of the bitwise or of op and m is bit i of op or of m |
| MotorBits.DecodeUpToBits | Server/src/Motor.cpp:976-998 | after k decoding steps, id bit i is set exactly when i < k and the word has the bit at position i |
| MotorBits.DecodeWith | Server/src/Motor.cpp:976-998 | the id is below 64 and its bit k is the word's bit at the k-th position |
| MotorBits.DecodeOperationId | Server/src/Motor.cpp:558-569 | the id is below 64 and its bits 0..5 are the word's bits M0, M1, M2, MS0, MS1, MS2 |
| MotorBits.DecodeMapped | Server/src/Motor.cpp:976-998 | the id is below 64 and its bit k is the word's bit for the k-th operation-select code |
| MotorBits.DecodeUnmapped | Server/src/Motor.cpp:976-998 | without assignments the mapped decoding is the fixed one |
| MotorBits.DecodeIgnoresOtherBits | Server/src/Motor.cpp:558-569 | words that agree on the six operation-select bits decode to the same id |
| MotorBits.DecodeExampleWord | tests/unit/server/MotorTests.cpp:41-49 | the word with M0, M2, MS1 and MS2 set decodes to operation 53 |
| MotorBits.MaskBits | Server/src/Motor.cpp:959-974 | a bit of the operation-id mask is set exactly when it is one of the six positions |
| MotorBits.OpBitsOfBits | Server/src/Motor.cpp:602-607 | with distinct positions, the bit at the k-th position of the applied bits is bit k of the id, and other bits are clear |
| MotorBits.SelectedRawBits | Server/src/Motor.cpp:583-608 | only the operation-id bits change: the one at the k-th position becomes bit k of the id, every other bit is kept |
| MotorBits.SelectDecode | Server/src/Motor.cpp:583-608 | decoding the selected word gives back the operation id, when the positions are distinct |
| MotorBits.SelectDecodeUnmapped | Server/src/Motor.cpp:937-998 | with no assignments loaded, the word written for an id decodes to that id |
| MotorBits.OperationAddr | Server/src/Motor.cpp:134-140 | ids 0..63 map to base + 2·id; a larger id is refused |
| MotorBits.Raw32 | Server/src/Motor.cpp:384 | the 32-bit cast is two's complement |
| MotorBits.U32 | Server/src/Motor.cpp:349-350 | the bitwise or of upper << 16 and lower lies below 2^32 |
| MotorBits.Int32RoundTrip | Server/src/Motor.cpp:384-388 | reading back the two registers written for a 32-bit value gives its unsigned image |
| MotorBits.AlarmCodeLower | Server/src/Motor.cpp:398-401 | the alarm code is the low byte of the lower register |
| MotorBits.FlagPos | Server/src/Motor.cpp:452-497 | the bit a flag changes lies below 16 and, without assignments, is the flag's own bit |
| MotorDriver.Stored | Server/src/Motor.cpp:381-396 | a block write sets the consecutive registers from the address and keeps every other one |
| MotorDriver.StoredElsewhere | Server/src/Motor.cpp:381-396 | a register outside a block write keeps its value |
| MotorDriver.Bus.constructor | tests/unit/server/MotorTests.cpp:13-24 | the test bus starts with the given registers and no writes |
| MotorDriver.Bus.ReadRegisters | Server/src/Motor.cpp:338-351 | a read returns the stored registers in order |
| MotorDriver.Bus.WriteRegister | Server/src/Motor.cpp:367-379 | a single write sets one register and is recorded |
| MotorDriver.Bus.WriteRegisters | Server/src/Motor.cpp:381-396 | a block write sets the registers and is recorded |
| MotorDriver.Motor.constructor | Server/src/Motor.cpp:260-262 | a new motor has no cached word, no cached id and no assignments |
| MotorDriver.Motor.LoadAssignments | Server/src/Motor.cpp:263-321 | initialization clears the caches, loads the NET-IN assignments it read, and re-reads the driver-input word, so that word and its operation id decoded through the new assignments are what it leaves cached |
| MotorDriver.Motor.ReadDriverInputRaw | Server/src/Motor.cpp:428-433 | the word read is the register's, and both caches are refreshed from it |
| MotorDriver.Motor.InputRaw | Server/src/Motor.cpp:448-450 | a change starts from the cached word, else from the register |
| MotorDriver.Motor.WriteDriverInputRaw | Server/src/Motor.cpp:439-444 | the word is written to the register once and both caches follow it |
| MotorDriver.Motor.NetInputBitForFunction | Server/src/Motor.cpp:924-935 | the search returns what the channel specification gives |
| MotorDriver.Motor.CodeBitOf | Server/src/Motor.cpp:964-971 | a code's bit is its channel, else its fallback |
| MotorDriver.Motor.OpBitOf | Server/src/Motor.cpp:959-974 | the bit of the k-th operation-select code is its position |
| MotorDriver.Motor.OperationIdMask | Server/src/Motor.cpp:959-974 | the loop builds the mask of the six positions |
| MotorDriver.Motor.DecodeOperationIdMapped | Server/src/Motor.cpp:976-998 | the six decoding steps compute the mapped decoding |
| MotorDriver.Motor.DecodeBit | Server/src/Motor.cpp:978-990 | one step sets id bit k when the word has the k-th code's bit |
| MotorDriver.Motor.ApplyOpBit | Server/src/Motor.cpp:587-601 | one step sets the k-th code's bit when the id has bit k |
| MotorDriver.Motor.SetDriverInputFlag | Server/src/Motor.cpp:446-498 | one write of the driver-input word with exactly the flag's bit set or cleared; the cache follows it |
| MotorDriver.Motor.FlagPosition | Server/src/Motor.cpp:452-497 | the flag's bit: its function's channel, else its fallback, else its own bit |
| MotorDriver.Motor.ReadSelectedOperationId | Server/src/Motor.cpp:571-576 | the cached id, else the decoding of the register |
| MotorDriver.Motor.SetSelectedOperationId | Server/src/Motor.cpp:578-609 | an id above 63 is refused before the bus is touched; otherwise exactly one write of the driver-input word is recorded, that word replaces only the operation-id bits, and with distinct positions it decodes back to the id, which is cached |
| MotorDriver.Motor.ReplaceOperationBits | Server/src/Motor.cpp:586-607 | the word with its mask bits cleared and the id's bits applied |
| MotorDriver.Motor.WriteInt32 | Server/src/Motor.cpp:381-396 | one block write of the upper then the lower word of the value |
| MotorDriver.Motor.ReadU32 | Server/src/Motor.cpp:338-351 | the value of the two registers, upper first |
| MotorDriver.Motor.ReadAlarmCode | Server/src/Motor.cpp:398-401 | the low byte of the present-alarm value |
| MotorDriver.Motor.ResetAlarm | Server/src/Motor.cpp:1000-1008 | nothing is written while no alarm is present; otherwise 0 then 1 go to the reset register in two logged writes, and every other register keeps its value |
| MotorDriver.Motor.UpdateConstantSpeedBuffered | Server/src/Motor.cpp:671-678 | the speed goes to operation 1 when 0 is active and to 0 otherwise; exactly two writes are made, the speed's two registers first and then the driver-input word selecting that operation, and no other register changes |
| MotorDriver.Motor.WriteInactiveSpeed | Server/src/Motor.cpp:674-676 | the speed is written to the operation that is not active, in one block write, and the driver-input word the selection starts from is left as it was |
| MotorDriver.BufferedUpdatesAlternate | Server/src/Motor.cpp:671-678 | two updates in a row write to different operations, so the first speed is still stored after the second update, and the selected operation is the one just written |
| CommandProcessor.Response | Server/src/MachineCommandProcessor.cpp:11-14 | the answer is an object with a status "OK" or "Error", a message, and a "response" exactly when one is given |
| CommandProcessor.StringField | Utilities/include/JsonExtensions.hpp:56-60 | a field converts exactly when it is present and a string, else the error names the key |
| CommandProcessor.Refuse | Server/src/MachineCommandProcessor.cpp:15-33 | a refusal is an error answer with the message and no dispatch |
| CommandProcessor.DispatchForStatus | Server/src/MachineCommandProcessor.cpp:39-43 | one dispatch with a 2 s timeout; OK exactly when the reply is empty, and the reply is the message |
| CommandProcessor.DispatchForDiagnostics | Server/src/MachineCommandProcessor.cpp:83-95 | one dispatch with a 2 s timeout; an empty reply is an error, a JSON reply becomes the "response", any other reply is the error message |
| CommandProcessor.ToolChangerCase | Server/src/MachineCommandProcessor.cpp:27-49 | missing "position" or "action" is refused; two valid names dispatch the tool-changer command; an invalid name is an error without dispatch |
| CommandProcessor.ResetCase | Server/src/MachineCommandProcessor.cpp:51-71 | missing "system" is refused; a valid component dispatches a reconnect; an invalid one is an error without dispatch |
| CommandProcessor.MotorCase | Server/src/MachineCommandProcessor.cpp:73-125 | missing "motor" is refused naming the command; a valid motor is dispatched; an invalid one is an error without dispatch |
| CommandProcessor.ProcessCommand | Server/src/MachineCommandProcessor.cpp:9-157 | every answer is well formed and at most one dispatch happens |
| CommandProcessor.ProcessTyped | Server/src/MachineCommandProcessor.cpp:26-157 | the same, once the type is known |
| CommandProcessor.MalformedCommandRefused | Server/src/MachineCommandProcessor.cpp:15-24 | a non-object command, or one without a string "type", is refused without a dispatch |
| CommandProcessor.UnknownTypeRefused | Server/src/MachineCommandProcessor.cpp:152-156 | an unknown type is refused naming it, without a dispatch, with "response" set to "YAY!" |
| CommandProcessor.MissingFieldsRefused | Server/src/MachineCommandProcessor.cpp:28-33 | a known type without its required fields is refused with its own message and no dispatch |
| CommandProcessor.InvalidEnumRefused | Server/src/MachineCommandProcessor.cpp:44-47 | a field that names no constant refuses the command without a dispatch, with a message naming the command and the cause |
| CommandProcessor.InvalidEnumMessage | Utilities/include/JsonExtensions.hpp:25-33 | text that names no motor is reported as an invalid enum value with the text |
| CommandProcessor.StatusFollowsReply | Server/src/MachineCommandProcessor.cpp:39-43 | for tool-changer, reset and alarm-reset commands the status is OK exactly when the reply is empty, and the reply is the message |
| CommandProcessor.DiagnosticsReply | Server/src/MachineCommandProcessor.cpp:83-95 | for diagnostics commands an empty reply is an error, a JSON reply is the OK answer's "response", any other reply is the error message |
| CommandProcessor.CommandJsonDispatches | Server/src/MachineCommandProcessor.cpp:27-150 | every command the processor handles has a JSON form that dispatches exactly that command with a 2 s timeout |
| CommandProcessor.ProcessCommandOfType | Server/src/MachineCommandProcessor.cpp:20-26 | an object with a string "type" is decided on that type |
| CommandProcessor.MotorFieldOfName | Utilities/include/JsonExtensions.hpp:56-63 | a field holding a motor's name reads as that motor |
| CommandProcessor.ToolChangerJsonDispatches | Server/src/MachineCommandProcessor.cpp:34-39 | the JSON form of a tool-changer command dispatches it |
| CommandProcessor.ResetJsonDispatches | Server/src/MachineCommandProcessor.cpp:57-61 | the JSON form of a reconnect command dispatches it |
| CommandProcessor.MotorJsonDispatches | Server/src/MachineCommandProcessor.cpp:79-83 | the JSON form of a motor command dispatches it |
| ComponentService.ReconnectMessage | Server/src/MachineComponentService.cpp:20-33 | a live component's reconnect answers the empty text exactly when it initializes and ends in Normal |
| ComponentService.ReconnectAnswer | Server/src/MachineComponentService.cpp:13-34 | the answer is empty exactly when the component is live and initializes to Normal |
| ComponentService.ReconnectCalls | Server/src/MachineComponentService.cpp:13-24 | a component is reset and initialized exactly when it is live |
| ComponentService.MachineComponentService.constructor | Server/src/MachineComponentService.cpp:9-11 | the service keeps the component map it was given and has made no call |
| ComponentService.MachineComponentService.Reconnect | Server/src/MachineComponentService.cpp:13-34 | an unknown or null component is not touched and "not implemented" is answered; a live one is reset, then initialized, and the answer follows the outcome |
| ComponentService.MachineComponentService.InitializeAll | Server/src/MachineComponentService.cpp:36-48 | every live component is initialized in key order, null entries are skipped, and a failure is logged and does not stop the rest |
| ComponentService.ReconnectMessagesDistinct | Server/src/MachineComponentService.cpp:16-33 | the three complaints are told apart from each other and from success |
| ComponentService.WarningIsUnsuccessful | Server/src/MachineComponentService.cpp:29-32 | a component that comes back in Warning is reported as unsuccessful |
| ComponentService.AscendingFront | Server/src/MachineComponentService.cpp:37 | a strictly ascending key sequence without its last key does not hold that key |
| ComponentService.InitializedOnceEach | Server/src/MachineComponentService.cpp:36-48 | each live component is initialized exactly once, and no other component is |
| ComponentService.InitCallsCount | Server/src/MachineComponentService.cpp:36-48 | the count of a component's initialize calls grows by one exactly at its own live entry |
| ComponentService.InitCallsAscending | Server/src/MachineComponentService.cpp:37 | the initialize calls follow the map's key order |
| ComponentService.KeyOrderAscending | Server/src/MachineComponentService.cpp:37 | the map's keys come in strictly ascending order |
| ComponentService.FailuresLogged | Server/src/MachineComponentService.cpp:41-46 | there is at most one failure per initialize call, and none exactly when no live component throws |
| ComponentService.InitializeAllExample | Server/src/MachineComponentService.cpp:36-48 | with Contec throwing, Contec, ControlPanel and MotorControl are still all initialized and one failure is logged |
| Controller.ConstructionError | Server/src/MachineController.cpp:38-43 | construction succeeds exactly when both the policy and the motor callback are given, and a missing policy is reported first |
| Controller.AppendAssoc | Server/src/MachineController.cpp:54-94 | concatenation of call traces is associative |
| Controller.MachineController.constructor | Server/src/MachineController.cpp:8-44 | the controller keeps its policy and starts with no calls and no warnings |
| Controller.MachineController.RunControlLoopTasks | Server/src/MachineController.cpp:46-95 | a policy error changes nothing; a blinking decision makes no call; otherwise the outputs are written, then the intents applied |
| Controller.MachineController.ApplyDecision | Server/src/MachineController.cpp:51-94 | nothing when blinking; otherwise the outputs, when present, then the intents |
| Controller.MachineController.ApplyIntents | Server/src/MachineController.cpp:57-94 | intents in order; those of unconfigured motors are skipped with a warning given once |
| Controller.MachineController.HandleIntent | Server/src/MachineController.cpp:58-68 | an unconfigured motor is skipped and warned about only when not yet warned; a configured one clears the flag and is driven |
| Controller.MachineController.ApplyIntent | Server/src/MachineController.cpp:69-93 | mode, direction, speed, acceleration, deceleration, position when given, then stop, else start when asked |
| Controller.MachineController.ApplyDrive | Server/src/MachineController.cpp:69-77 | mode, direction and speed, each when given |
| Controller.MachineController.ApplyProfile | Server/src/MachineController.cpp:78-86 | acceleration, deceleration and position, each when given |
| Controller.MachineController.ApplyMove | Server/src/MachineController.cpp:87-93 | stop when asked, else start when asked |
| Controller.MachineController.HandleToolChangerCommand | Server/src/MachineController.cpp:97-121 | refused while Contec is in Error; otherwise the arm's signal is written and a failed read-back raises |
| Controller.ConcatAscending | Server/src/MachineController.cpp:69-93 | two ordered runs, the second of higher ranks, make one ordered run |
| Controller.OutsideRanksAbsent | Server/src/MachineController.cpp:69-93 | a callback whose rank lies outside a run's ranks is not in the run |
| Controller.ConcatAllFor | Server/src/MachineController.cpp:69-93 | two runs for one motor make one run for that motor |
| Controller.DriveCallsFacts | Server/src/MachineController.cpp:69-77 | the drive callbacks come in order and name the intent's motor |
| Controller.ProfileCallsFacts | Server/src/MachineController.cpp:78-86 | the profile callbacks come in order and name the intent's motor |
| Controller.IntentCallsOrdered | Server/src/MachineController.cpp:69-93 | an intent's callbacks all name its motor and come in strictly ascending order |
| Controller.IntentSettersWhenGiven | Server/src/MachineController.cpp:69-86 | each setter is called when the intent gives its value |
| Controller.IntentSettersOnlyWhenGiven | Server/src/MachineController.cpp:69-86 | a setter is called only with the value the intent gives |
| Controller.IntentMovement | Server/src/MachineController.cpp:87-93 | stop is called exactly when asked; start exactly when asked and no stop was |
| Controller.ExampleIntentOrder | tests/unit/server/MachineControllerTests.cpp:174-206 | Speed mode, Reverse, speed 1200 and start are applied as mode, direction, speed, start |
| Controller.UnconfiguredMotorUntouched | Server/src/MachineController.cpp:58-67 | a motor that is not configured gets no callback at all |
| Controller.IntentsWriteNoOutputs | Server/src/MachineController.cpp:57-94 | intent callbacks never write outputs |
| Controller.OutputsWrittenIffPresent | Server/src/MachineController.cpp:51-56 | a blinking decision makes no callback; otherwise the outputs are written exactly when present, first |
| Controller.WarnedAfterSpec | Server/src/MachineController.cpp:58-68 | after a run, the flag of each motor that appeared says whether its last intent was unconfigured; others keep their flag |
| Controller.NoRepeatedWarning | Server/src/MachineController.cpp:59-65 | a motor already warned about and still unconfigured is not warned about again |
| Controller.WarningsDistinct | Server/src/MachineController.cpp:59-65 | within one cycle a motor is warned about at most once, and only an unconfigured one |
| Controller.WarnOnceUntilConfigured | tests/unit/server/MachineControllerTests.cpp:208-236 | an unconfigured motor is warned about in the first cycle, not the next, and again after a cycle saw it configured |
| Controller.ToolChangerWritesOwnSignal | Server/src/MachineController.cpp:107-115 | Left and Right write only their own signal, true to open; the gantry gets an empty write |
| Controller.NothingConfiguredNoCalls | Server/src/MachineController.cpp:57-67 | with no motor configured the intents make no callback |
| Controller.RimoKunCycleExample | Server/src/MachineController.cpp:46-95 | a RimoKun cycle past the guard with no motor configured writes the lights and nothing else |
| StatusBuilder.StateToLed | Server/src/MachineStatusBuilder.cpp:98-101 | a component's LED is On exactly when the component is Normal, and Error otherwise |
| StatusBuilder.StatusBoard.constructor | Server/src/MachineStatusBuilder.cpp:5-8 | the board starts from the empty status and has published nothing |
| StatusBuilder.StatusBoard.UpdateAndPublish | Server/src/MachineStatusBuilder.cpp:5-96 | the status becomes the specified update of the old one (component LEDs, joysticks, tool-changer flags) and exactly that status is appended to what was published |
| StatusBuilder.StatusBoard.UpdateComponentLeds | Server/src/MachineStatusBuilder.cpp:9-11 | the loop over the components leaves each given component's LED from its state and keeps the others, whatever order the components are visited in |
| StatusBuilder.StatusBoard.UpdateProximity | Server/src/MachineStatusBuilder.cpp:65-73 | only the two proximity flags change, as the proximity specification says; nothing is published |
| StatusBuilder.StatusBoard.UpdateValves | Server/src/MachineStatusBuilder.cpp:75-93 | only the four valve flags change, as the valve specification says; nothing is published |
| StatusBuilder.StatusBoard.SetFlag | Server/src/MachineStatusBuilder.cpp:43-56 | one flag of one arm is set and the rest of the status is kept |
| StatusBuilder.StatusBoard.SetAllToolChangerFlags | Server/src/MachineStatusBuilder.cpp:28-41 | the nested loop over both arms and all five flags leaves every flag of both arms at the given LED and keeps the gantry entry, the LEDs and the joysticks |
| StatusBuilder.ComponentLedsFollowStates | Server/src/MachineStatusBuilder.cpp:9-11 | after the update every given component's LED is On iff it is Normal and Error otherwise; components not given keep their LED; no other key appears |
| StatusBuilder.JoysticksFromSnapshot | Server/src/MachineStatusBuilder.cpp:18-24 | snapshot slots 0, 1 and 2 become the left, right and gantry joysticks unchanged |
| StatusBuilder.AllFlagsCoverEveryFlag | Server/src/MachineStatusBuilder.cpp:29-35 | the flag list names every tool-changer flag, so setting them all leaves none out |
| StatusBuilder.ContecErrorFlagsAllError | Server/src/MachineStatusBuilder.cpp:13-16 | with the Contec board in Error all five flags of both arms show Error whatever the signals read, and the gantry entry is left alone |
| StatusBuilder.ProximityFromButtons | Server/src/MachineStatusBuilder.cpp:65-73 | without a Contec error the proximity flags are On iff button1/button2 are pressed when both are read, and Error otherwise |
| StatusBuilder.ValvesFromOutputs | Server/src/MachineStatusBuilder.cpp:75-93 | without a Contec error each arm's OpenValve is On iff its output is set and ClosedValve shows the opposite when both outputs are read; otherwise all four valve flags show Error |
| StatusBuilder.ValveFlagsKeepOthers | Server/src/MachineStatusBuilder.cpp:75-93 | the valve update leaves every flag other than OpenValve and ClosedValve as it was |
| StatusBuilder.SensorFlagsKept | Server/src/MachineStatusBuilder.cpp:59-95 | without a Contec error the open and closed sensor flags are never touched |
| StatusBuilder.PublishesOnce | Server/src/MachineStatusBuilder.cpp:59-95 | each update publishes exactly once, and what it publishes is the status it leaves behind, so a second update starts from the first one's result |
| ControlPolicy.Lights | Server/src/RobotControlPolicy.cpp:26-28 | the outputs are exactly light1 and light2, copied from button1 and button2 |
| ControlPolicy.Clamp | Server/src/RobotControlPolicy.cpp:34-36 | the axis is brought into [-1, 1] and a value already inside is unchanged |
| ControlPolicy.RoundHalfAway | Server/src/RobotControlPolicy.cpp:47-52 | the result is the nearest integer, with halves rounded away from zero |
| ControlPolicy.ToInt32 | Server/src/RobotControlPolicy.cpp:51 | the conversion to a 32-bit integer yields a value in range, keeps in-range values, and agrees with its input modulo 2^32 |
| ControlPolicy.SpeedStepsPerSec | Server/src/RobotControlPolicy.cpp:47-52 | the speed of an axis fits in 32 bits |
| ControlPolicy.SpeedIgnoresDirection | Server/src/RobotControlPolicy.cpp:47-52 | an axis and its mirror image give the same speed |
| ControlPolicy.JoystickOrNeutral | Server/src/RobotControlPolicy.cpp:38-45 | a joystick the status lacks reads as centred and released; one it holds is returned as is |
| ControlPolicy.BlinkingIffGuard | Server/src/RobotControlPolicy.cpp:18-20 | for either policy the tool-changer error blinks exactly when there are no inputs or the Contec board is in Error, and then nothing is written and no motor is commanded |
| ControlPolicy.MissingButtonRaises | Server/src/RobotControlPolicy.cpp:21-24 | past the guard a decision fails exactly when button1 or button2 is missing, with the source's message |
| ControlPolicy.LightsFollowButtons | Server/src/RobotControlPolicy.cpp:26-30 | past the guard with both buttons read, the decision writes exactly light1 and light2 copied from the buttons and does not blink |
| ControlPolicy.DefaultPolicyHasNoIntents | Server/src/RobotControlPolicy.cpp:11-31 | the default policy never commands a motor |
| ControlPolicy.RimoKunAgreesWithDefault | Server/src/RobotControlPolicy.cpp:108-124 | the RimoKun policy decides outputs, blinking and errors exactly as the default policy does |
| ControlPolicy.SixIntentsInOrder | Server/src/RobotControlPolicy.cpp:125-164 | past the guard RimoKun emits six intents for XLeft, YLeft, XRight, YRight, ZLeft and ZRight in that order, and both Z motors get the same command |
| ControlPolicy.SpeedIntentShape | Server/src/RobotControlPolicy.cpp:131-150 | an intent is stop-only exactly when the clamped axis is inside the neutral band; otherwise it starts in Speed mode, Forward iff the axis is not negative, at a speed of at least 1 that fits in 32 bits |
| ControlPolicy.MissingJoystickIsNeutral | Server/src/RobotControlPolicy.cpp:38-45 | a missing joystick drives the motors exactly as a centred, released one would |
| ControlPolicy.NoJoysticksStopsAll | Server/src/RobotControlPolicy.cpp:127-160 | with no joystick in the status and positive neutral thresholds, every motor is told to stop and none to start |
| ControlPolicy.FullDeflectionSpeed | Server/include/RobotControlPolicy.hpp:61-64 | with the default axis settings full deflection runs at 8000 steps/s in either direction, and a deflection past the end stop runs no faster |
| MachineCore.RequireMappingIndex | Server/src/Machine.cpp:13-22 | the key's index is returned exactly when the key is mapped, and otherwise the error names the missing key |
| MachineCore.ValidateMappedIndex | Server/src/Machine.cpp:232-241 | an index is accepted exactly when it is a channel of the vector, and otherwise the error states the signal, the index, the size and the side |
| MachineCore.Interval | Server/src/Machine.cpp:132-140 | a configured interval is never below 1 ms |
| MachineCore.Configure | Server/src/Machine.cpp:123-153 | a machine that is built has both intervals at 1 ms or more |
| MachineCore.ConfigureSucceedsIffMapped | Server/src/Machine.cpp:123-153 | a machine is built exactly when there is a clock and button1, button2, toolChangerLeft, toolChangerRight, light1 and light2 are all mapped, and it then keeps both mappings as given |
| MachineCore.MissingKeyNamed | Server/src/Machine.cpp:147-152 | for each of the six required keys, when the keys before it are mapped and it is not, the error names that key (a missing clock is reported before any of them) |
| MachineCore.IntervalsPreferCurrentKeys | Server/src/Machine.cpp:132-140 | the current interval keys win over the legacy ones, values below 1 become 1, and the defaults are 10 ms and 50 ms |
| MachineCore.ChannelName | Server/src/Machine.cpp:108-117 | a channel's name is either empty or a mapped signal whose index is that channel |
| MachineCore.ChannelNameExtend | Server/src/Machine.cpp:111-115 | visiting one more signal fills a channel's slot only when the slot is still empty |
| MachineCore.BuildContecChannelNames | Server/src/Machine.cpp:108-117 | the loop over the mapping in key order yields eight names, each the first non-empty signal mapped to its channel |
| MachineCore.ChannelNameIsFirst | Server/src/Machine.cpp:108-117 | a channel some non-empty signal maps to is never left unnamed, and its name is the least such signal in key order |
| MachineCore.MappedSignals | Server/src/Machine.cpp:163-170 | a read yields signals exactly when every mapped index is inside the vector, and then it holds exactly the mapped signals |
| MachineCore.ReadMapped | Server/src/Machine.cpp:166-169 | the validating loop over the mapping gives the mapped signals, whatever order the signals are visited in, and none when an index is out of range |
| MachineCore.MappedSignalsAreChannels | Server/src/Machine.cpp:166-169 | every signal read takes the value of the channel it is mapped to |
| MachineCore.Merged | Server/src/Machine.cpp:185-193 | the merged vector exists exactly when every named signal is mapped inside the vector, and it keeps the vector's length |
| MachineCore.UntargetedChannelKept | Server/src/Machine.cpp:185-193 | a channel no named signal maps to keeps its read-back value |
| MachineCore.TargetedChannelSet | Server/src/Machine.cpp:185-193 | a channel exactly one named signal maps to takes that signal's value |
| MachineCore.MergeChangesOnlyNamedChannels | Server/src/Machine.cpp:183-194 | the vector written differs from the one read back only on the named signals' channels, and each of those holds its signal's value |
| MachineCore.UnknownSignalWritesNothing | Server/src/Machine.cpp:186-191 | an unknown signal, or one mapped outside the vector, means nothing is written |
| MachineCore.WrittenSignalsReadBack | Server/src/Machine.cpp:194-201 | the output signals cached after a write give each named signal its new value |
| MachineCore.ReplyText | Server/src/Machine.cpp:270-307 | a handler that raises is answered with its exception's text, and a command other than the diagnostics ones that returns is answered with the empty text |
| MachineCore.ReconnectOutcome | Server/src/Machine.cpp:426-432 | the reconnect handler returns exactly when the service's message is empty, and otherwise raises that message |
| MachineCore.FreshSignals | Server/src/Machine.cpp:155-177 | no signals while the board is in Error or the read raises; otherwise each mapped signal takes its channel's value |
| MachineCore.ReconnectReplyIsServiceMessage | Server/src/Machine.cpp:426-432 | the reply to a reconnect command is exactly the component service's answer: empty on success, its complaint otherwise |
| MachineCore.ShutdownReplies | Server/src/Machine.cpp:577-580 | every command still queued gets one reply "Machine is shutting down", in queue order |
| MachineCore.CycleFailureResets | Server/src/Machine.cpp:311-338 | an unhandled exception of a cycle resets exactly the components not already in Error, in the order motor control, Contec, control panel |
| MachineCore.ControlTaskFailureResets | Server/src/Machine.cpp:369-391 | a failing control-loop task resets the motor control only, and only when it is not in Error already |
| MachineCore.DummyStatusShape | Server/src/Machine.cpp:585-616 | the dummy status holds exactly the six motors, each idle with its four flags Off, and both arms' tool changers with all five flags Off; the gantry tool changer, component LEDs and joysticks are kept |
| MachineCore.Machine.constructor | Server/src/Machine.cpp:123-153 | a new machine keeps the configured mappings and intervals, owns an open empty queue and a service over its three components, and has no cached signals, board traffic or replies |
| MachineCore.Machine.ReadInputSignals | Server/src/Machine.cpp:155-177 | this cycle's cached inputs are returned without a read; otherwise the board is not read while in Error, a read that raises gives none, and the result is cached for the cycle |
| MachineCore.Machine.ReadOutputSignals | Server/src/Machine.cpp:208-230 | the same as the input read, for the outputs |
| MachineCore.Machine.BeginCycle | Server/src/Machine.cpp:264-266 | a new cycle starts with both caches invalid |
| MachineCore.Machine.SetOutputs | Server/src/Machine.cpp:179-206 | nothing happens while the board is in Error; otherwise the outputs are read back, the merged vector is written unless a signal is unknown or out of range, and the output cache holds the signals written, or none when anything raised |
| MachineCore.Machine.MergeSignals | Server/src/Machine.cpp:185-193 | the merge loop over the signals in key order gives the merged vector, or none at the first unknown or out-of-range signal |
| MachineCore.Machine.MakeDummyStatus | Server/src/Machine.cpp:585-616 | the loop over the motors leaves the dummy status and changes nothing else |
| MachineCore.Machine.SubmitCommand | Server/src/Machine.cpp:353-355 | a command is queued exactly when the queue is not shut down |
| MachineCore.Machine.DispatchCommandAndWait | Server/src/Machine.cpp:357-367 | a refused command is answered "Machine is shutting down" at once; an accepted one is answered with its reply, or "Command processing timed out" |
| MachineCore.Machine.ServeOneCommand | Server/src/Machine.cpp:269-308 | the front command, if there is one, is taken from the queue and gets exactly one reply; a reconnect command resets and initializes its component through the service, is answered with the service's message, and replaces the status by the dummy status exactly when that message is empty |
| MachineCore.Machine.Initialize | Server/src/Machine.cpp:393-415 | initialization is refused while collaborators are missing or the machine already runs, changing nothing; otherwise the machine runs, the dummy status is set and every component is initialized |
| MachineCore.Machine.Shutdown | Server/src/Machine.cpp:573-583 | the machine stops, the queue is shut down and emptied, and every command that was waiting is answered "Machine is shutting down" in order |
| MachineCore.CachedWithinCycle | Server/src/Machine.cpp:155-158 | within one cycle the board is read once and a second read returns the first read's signals even if the board changed; the next cycle reads it again |
| MachineCore.ShutdownAnswersWaitingCommands | Server/src/Machine.cpp:573-583 | after shutdown the waiting commands are answered in order, and a command dispatched later is refused at once |
| MachineCore.InitializeTwice | Server/src/Machine.cpp:401-405 | a second initialize is refused and does not initialize the components again |
| GuiJson.ToJson | GUI/src/GuiCommandJsonAdapter.cpp:5-50 | a typed command becomes an object whose "type" names its kind; a raw command is its own document |
| GuiJson.FromJson | GUI/src/GuiCommandJsonAdapter.cpp:52-67 | a response is read exactly when it is a JSON object |
| GuiJson.FromJsonFields | GUI/src/GuiCommandJsonAdapter.cpp:56-66 | ok holds exactly when "status" is the string "OK"; a missing or non-string message reads as empty; the payload is present exactly when "response" is, and verbatim |
| GuiJson.HandledCommandsDispatch | GUI/src/GuiCommandJsonAdapter.cpp:9-29 | every command kind the server handles is written exactly as the server's own encoding, so the server dispatches that very command once with its two-second timeout |
| GuiJson.EnableCommandsUnknownToServer | GUI/src/GuiCommandJsonAdapter.cpp:30-40 | the motor-enabling commands the GUI writes are refused by the server's processor as unknown types, and nothing is dispatched |
| GuiJson.ServerResponsesReadBack | GUI/src/GuiCommandJsonAdapter.cpp:52-67 | reading back any response the server's processor writes gives its status, message and payload unchanged |
| GuiYaml.DecodeEnum | GUI/include/GuiYamlExtensions.hpp:25-26 | an enumeration is read exactly when the node is a scalar naming one of its constants |
| GuiYaml.DecodeToolChanger | GUI/include/GuiYamlExtensions.hpp:18-28 | a node that is not a map of type "toolChanger" with both "position" and "action" is refused |
| GuiYaml.DecodeReconnect | GUI/include/GuiYamlExtensions.hpp:40-49 | a node that is not a map of type "reset" with a "system" field is refused |
| GuiYaml.DecodeCommand | GUI/include/GuiYamlExtensions.hpp:70-90 | anything but a map is refused, and a map of neither typed kind is read as a raw command of itself |
| GuiYaml.DecodeResponse | GUI/include/GuiYamlExtensions.hpp:105-124 | a response is read exactly when the node is a map |
| GuiYaml.ToolChangerRoundTrip | GUI/include/GuiYamlExtensions.hpp:10-28 | a tool-changer command decodes back to itself, directly and through the command wrapper |
| GuiYaml.ReconnectRoundTrip | GUI/include/GuiYamlExtensions.hpp:33-49 | a reconnect command decodes back to itself, directly and through the command wrapper |
| GuiYaml.RawRoundTrip | GUI/include/GuiYamlExtensions.hpp:52-90 | a raw command decodes back to itself when its node is a map that looks like neither typed command |
| GuiYaml.RawScalarNotDecoded | GUI/include/GuiYamlExtensions.hpp:54-71 | a raw command whose node is not a map cannot be read back |
| GuiYaml.BadFieldFailsDecode | GUI/include/GuiYamlExtensions.hpp:46-47 | a "system" field that names no component is a conversion error for the typed decoder and a failed decode for the wrapper |
| GuiYaml.ResponseRoundTrip | GUI/include/GuiYamlExtensions.hpp:95-124 | every response decodes back to itself |
| GuiYaml.EmptyMapResponse | GUI/include/GuiYamlExtensions.hpp:106-123 | the response is reset first, so a map without the fields reads as not ok, with no message and no payload |
| StatusView.FlagOrOff | GUI/src/RobotStatusViewModel.cpp:4-12 | a tool-changer flag shows its LED, or Off when it is missing |
| StatusView.ToolChangerForArm | GUI/src/RobotStatusViewModel.cpp:15-34 | there is a panel exactly when the status holds the arm's tool changer |
| StatusView.ComponentOrOff | GUI/src/RobotStatusViewModel.cpp:44-50 | a component shows its LED, or Off when the status does not hold it |
| StatusView.ResetControlsForStatus | GUI/src/RobotStatusViewModel.cpp:36-62 | without a status the default controls are shown; with one the server LED is On |
| StatusView.ToolChangerPanelShowsFlags | GUI/src/RobotStatusViewModel.cpp:21-33 | the panel shows each flag of the arm, Off for a missing one, and each button is enabled exactly while its valve is not On |
| StatusView.FlaglessToolChanger | GUI/src/RobotStatusViewModel.cpp:15-34 | a tool changer without flags shows every LED Off with both buttons enabled |
| StatusView.ResetControlsFollowComponents | GUI/src/RobotStatusViewModel.cpp:42-61 | each component shows its LED, each reset button is enabled exactly when that LED is Error, and the enable-all and disable-all buttons are enabled together exactly while the motor control is On or Warning |
| StatusView.MissingComponentsDisableButtons | GUI/src/RobotStatusViewModel.cpp:44-61 | a status without components shows them Off and disables every button although the server is On |
| StatusView.MotorResetExcludesEnableAll | GUI/src/RobotStatusViewModel.cpp:55-58 | no status ever enables the motor reset together with enable-all |
| StateStore.StatusSignals | GUI/src/GuiStateStore.cpp:11-19 | a status always ends with one status signal, preceded by "connected" exactly when the store was disconnected, and never says "disconnected" |
| StateStore.GuiStateStore.constructor | GUI/src/GuiStateStore.cpp:3 | a new store is disconnected, has no status and has emitted nothing |
| StateStore.GuiStateStore.OnStatusReceived | GUI/src/GuiStateStore.cpp:11-19 | the store is connected with the new status, and emits the status signals |
| StateStore.GuiStateStore.OnServerDisconnected | GUI/src/GuiStateStore.cpp:21-27 | the store is disconnected, keeps its last status, and says "disconnected" exactly when it was connected |
| StateStore.Changes | GUI/src/GuiStateStore.cpp:16-26 | a count of connection changes never exceeds the signals counted |
| StateStore.ChangesAppend | GUI/src/GuiStateStore.cpp:16-26 | counting connection changes distributes over concatenation |
| StateStore.StatusSignalsCount | GUI/src/GuiStateStore.cpp:15-18 | a status adds one "connected" signal exactly when the store was disconnected, and no "disconnected" one |
| StateStore.DisconnectCount | GUI/src/GuiStateStore.cpp:22-26 | a disconnect adds one "disconnected" signal exactly when the store was connected, and no "connected" one |
| StateStore.ConnectUpdateDisconnect | GUI/src/GuiStateStore.cpp:11-27 | two statuses and two disconnects emit connected, both statuses and one disconnected, and the store keeps the last status |
| StateStore.SignalsAlternate | GUI/src/GuiStateStore.cpp:11-27 | over any run the "connected" signals outnumber the "disconnected" ones by one exactly while the store is connected |
| MotorStatsView.MotorFlagOrOff | Utilities/src/VMotorStats.cpp:8-15 | a motor flag shows its LED, or Off when the status does not hold it |
| MotorStatsView.VMotorStats.constructor | Utilities/src/VMotorStats.cpp:3 | a new view has had no setter called |
| MotorStatsView.VMotorStats.Configure | Utilities/src/VMotorStats.cpp:3-16 | configure makes exactly the setter calls the status calls for, after those made before |
| MotorStatsView.ConfigureSetsEveryField | Utilities/src/VMotorStats.cpp:3-16 | each of the six setters is called once, in the order position, target, torque, speed, brake, enabled; numbers pass through unchanged and brake and enabled show their flags, Off when missing |
| MotorStatsView.OtherFlagsIgnored | Utilities/src/VMotorStats.cpp:8-15 | the alarm and warning flags do not reach the view |
| MotorStatsView.ConfigureWithoutFlags | Utilities/src/VMotorStats.cpp:8-15 | a status without flags shows the brake and the enable state Off |

## Left out

- I/O and foreign code are not modelled: files, the text-extraction
  subprocess and the command line of the parser script, and the C++ and CSV
  emitters. The Modbus backends and sockets are left out too; the bytes a
  peer sends back are the parameter `rx`. LibSerial is left out, as are ZeroMQ
  publishing, Qt widgets and signals (the store's signals are a recorded
  sequence) and logging text.
- Concurrency is not modelled: threads and their joins, mutexes, condition
  variables, atomics, the panel's reader thread and timed waits. Each queue
  operation has the effect it has while holding the lock.
- Clocks and sleeping are integer time points with a fake clock. Waiting for
  a reply is the reply given, or a time-out.
- The Modbus inter-request delay is checked, but the gap it enforces between
  requests is timing and is not modelled.
- Floating point is modelled as exact reals: the panel's baseline means and
  published axes, the policy's axes and axis settings, and the RimoKun speed
  conversion. `RoundHalfAway` states the rounding of `llround`.
- The duty-cycle statistics of the loop runner are not modelled: they are a
  floating-point sum and a log line. Only the duty-log deadline is scheduled.
- Configuration loading (YAML files, `Config::instance`) is not modelled. The
  values read from it are parameters: the machine's mappings and intervals,
  the panel settings, the serial settings and the transport type. The
  RimoKun policy's motion configuration is a parameter with the header's
  defaults; reading it from YAML is left out.
- The JSON bodies of the motor and Contec diagnostics answers
  (Server/src/Machine.cpp:24-106, 434-571) are left out, as are the
  enable-motor handlers. A handler's reply is the caller's value.
- The motor operations outside the register bit logic are not modelled:
  pulsing an input (with its sleep), setEnabled, setForward, setReverse,
  setJog, setOperationMode, the setters of function, position, acceleration
  and deceleration, setRunCurrent, setStopCurrent, configureConstantSpeedPair,
  the decoding of driver status words, initialization logging and the
  function-name tables.
- LoadAssignments: the NET-IN assignment table is a parameter rather than
  read from its registers, and the other reads of `initialize` (the alarm
  sanity check, the warning and communication-error codes, the other
  assignment tables and status words) are left out, since they only log or
  fill tables this model does not use.
- Opening, reading and closing the serial port (`open`, `closeNoThrow`,
  `readLine`, `closeSerialNoThrow`) are not modelled.
- A `std::map` is visited in ascending key order. Where that order matters,
  an operation takes the keys in that order as a parameter, and its
  precondition states that they are the map's keys in order.
- The status builder's component map holds only live components. A null
  component is not modelled.
- The controller's motor-configured callback is the set of configured
  motors.
- The model follows the .cpp files where the headers are stale: the command
  variants of CommandInterface.hpp and GuiCommand.hpp, the Warning LED state,
  the cache fields of Machine.hpp, and the acceleration of MotorIntent.
- Enumerations are written as their constant's name and read back by exact
  comparison. This is how the enum converters of the JSON and YAML helpers
  behave; their library internals are left out. Cloning a YAML node is the
  identity on node values.
- `\d` and `\b` of the parser's regular expressions are modelled for ASCII
  digits and letters only. Python's `str.strip` and `str.split` use its
  whitespace set.
- The decimal index in each trailing comment of the register-map table is
  not modelled; the table's rows are (address, name) pairs.
- A thrown exception is an error value (`Result.Err` with the exception's
  text), and `std::unexpected` is one too. Exception types are not told
  apart except where the code catches them differently.
- The names the serial library accepts for baud rates, character sizes, flow
  control, parities and stop bits are a parameter (`SettingNames`). The
  library's own name tables are not part of this model.
- SerialComm.AsCount: a bare "0x" with no digits after it is refused. The
  stream conversion's handling of that corner is library internals and is
  not modelled.

## Findings

| source | as written | input that shows it | evidently intended | confidence | as-written member | corrected member |
|---|---|---|---|---|---|---|
| Server/include/ModbusClient.hpp:791-799 | `read_bits` over RTU-over-TCP reads `byteCount` from the reply but never checks it against the number of bits asked for, and unpacks the bits from whatever bytes follow | a reply to a read of 16 coils whose byte count is 1: the second data byte is taken from the CRC | the reply is accepted only when its byte count is the number of bytes the bits need, as for register reads | not executed | ModbusRtuFacts.BitsByteCountUnchecked | ModbusRtu.BitsReply |
| Server/include/ModbusClient.hpp:689-702 | `exchange_fixed` reads the full 8-byte echo before looking at the function byte, so a 5-byte exception reply is never read whole; the read fails (the socket times out) and the exception code is lost | the exception reply [slave, 0x86, 0x02, crcLo, crcHi] to a write-single-register request | the exception is detected from the first bytes, and reported as a Modbus exception | not executed | ModbusRtuFacts.FixedExceptionLost | ModbusRtu.FixedResponse |

The Modbus client class follows the code as written: its write methods
decode the reply with `FixedResponseAsWritten` and `ReadBits` with
`BitsReplyAsWritten`. The corrected decoders state the intended behaviour.
`ModbusRtuFacts.FixedAgreesOnSuccess` and
`ModbusRtuFacts.BitsAgreeOnMatchingCount` show that the two agree on every
reply the corrected decoders accept.
