# PrussianStudio core, modelled in Dafny

PrussianStudio is a small SCADA toolkit. A GUI polls Modbus devices, a logger records selected
channels, and a websocket relay server rebroadcasts device snapshots between clients and writes
them to SQLite. This project models the sequential logic at the heart of those pieces and proves
properties of it.

- **Register window and buffer decoding** (`Devices`, `Channels`, `Float32`).
  - Enabled Int16 and Real32 channels push their addresses.
  - The device is read as one inclusive window `min..=max`.
  - The reply buffer is mapped back onto the channels by position.
  - Int16 takes the plain word. Real32 takes the binary32 number whose bits are the high word then the low word. A coil reads inverted.
- **Threshold alarms** (`Alarms`): a strict comparison against a setpoint.
- **Channel patterns and loggers** (`ChannelPatterns`, `Loggers`, `LoggerChannels`).
  - A pattern is a comma-separated list of `begin-end` ranges.
  - Each range is resolved once against the channel regex and once against the calculation regex.
  - The result is the list of default entries the logger records.
- **Relay bookkeeping** (`Server`).
  - The registry of connected clients.
  - The receive loop: it broadcasts every text and binary frame, and logs a text frame that is a device snapshot at most once per second.
  - The send loop: it forwards every broadcast except the connection's own.
  - The rows `log_data` writes.
- **Configuration** (`Config`, `Common`): the device configuration types and the shared `Option`/`Result` wrappers.

Rust integers are modelled as unbounded naturals, except where the width matters:
- `u16` addresses wrap around on `index + 1`, as a release build does;
- `as i32` truncates;
- `Instant::elapsed` saturates at zero.

The model's form follows the code:
- The loops of `get_register_list`, `channel_values_from_buffer`, `Device::initialize`/`Default`, `parse_pattern`, `construct_*_vec`, `log_data` and the two websocket tasks are methods with loop invariants. Each is tied by its ensures to a specification function or stated element by element, and the lemmas are stated about those functions.
- The server's shared state is the class `Server.AppState`.
- `Channel` and `Alarm` are plain values that are copied everywhere. Their `&mut self` updates are therefore functions that return the updated value.

Where the documented intent and the code disagree, the model follows the code:
- `parse_pattern`'s "No channel pattern found!" error cannot happen, because `split` always yields at least one piece. Any non-empty pattern succeeds, even one in which every piece is skipped.
- `device/src/channel/mod.rs` defines a reduced `Channel`. The model uses the full set of fields that `device/src/lib.rs` relies on, and the fields missing from `Default` take their zero values.

## Model

| member | source | states |
|---|---|---|
| Config.DefaultDeviceConfig | device/src/config.rs:29-36 | the default endpoint is Modbus/TCP at 127.0.0.1 port 502 |
| LoggerChannels.DefaultCalculation | device/src/calculation/mod.rs:3-8 | the derived default calculation has id 0, value 0.0 and an empty tag |
| LoggerChannels.EntryId | logger/src/channel_pattern.rs:157-160 | a channel entry carries its channel's id and a calculation entry its calculation's id |
| LoggerChannels.EntryIds | logger/src/channel_pattern.rs:155-161 | the id list has one id per entry, in entry order |
| LoggerChannels.EntryIdsAppend | logger/src/channel_pattern.rs:107-110 | the ids of concatenated entry lists are the concatenated ids, so appending the calculations after the channels appends their ids |
| Common.Range | logger/src/channel_pattern.rs:66-68 | `begin..(end + 1)` is the ascending run of end - begin + 1 ids starting at begin, empty when begin > end |
| Common.RangeMembership | logger/src/channel_pattern.rs:66-68 | an id is in the run exactly when it lies between the bounds |
| Float32.Combine | device/src/lib.rs:209-210 | the shift-and-or puts the high word in the upper 16 bits and the low word in the lower 16 |
| Float32.CombineInjective | device/src/channel/mod.rs:47 | distinct word pairs give distinct bit patterns |
| Float32.FromWord | device/src/lib.rs:206 | `word as f32` is the exact unsigned magnitude of the word |
| Float32.F32FromBits | device/src/lib.rs:211-212 | decoding as IEEE-754 binary32 gives a finite number exactly when the exponent field is not all ones, and NaN exactly when it is all ones and the mantissa is non-zero |
| Float32.PiFromWords | device/src/channel/mod.rs:45-50 | the reply words 0x4049, 0x0FDB decode to approximately 3.14159 |
| Float32.OneFromBits | device/src/lib.rs:211-212 | 0x3F800000 decodes to 1.0 and 0xBF800000 to -1.0 |
| Alarms.Alarm.ProcessAlarm | device/src/channel/alarm.rs:21-38 | a Low alarm is active exactly when the value is below the setpoint and a High alarm exactly when it is above; type, enabled flag and setpoint are kept |
| Alarms.DefaultAlarm | device/src/channel/alarm.rs:53-61 | the default alarm is High, inactive, disabled, setpoint 0.0 |
| Alarms.AlarmTypeName | device/src/channel/alarm.rs:41-51 | Low displays as "Low" and High as "High" |
| Alarms.AlarmTypeNameInjective | device/src/channel/alarm.rs:41-51 | the two alarm types display differently |
| Alarms.AtSetpointInactive | device/src/channel/alarm.rs:24-31 | a value equal to the setpoint never raises an alarm, whatever the direction |
| Alarms.ProcessAlarmIgnoresFlags | device/src/channel/alarm.rs:21-38 | the new active flag depends only on direction, setpoint and value |
| Alarms.ProcessAlarmIdempotent | device/src/channel/alarm.rs:21-38 | processing the same value twice is processing it once |
| Alarms.SetpointFiftyExample | device/src/channel/alarm.rs:23-36 | with setpoint 50.0, 49.9 raises a Low alarm and not a High one, and 50.1 the reverse |
| Channels.DefaultChannel | device/src/channel/mod.rs:64-73 | the default channel has id 0, type BoolType, access Read, value 0.0, index 0, default alarms, and is disabled |
| Channels.NewChannel | device/src/channel/mod.rs:28-37 | `Channel::new` copies id, types and index, sets value 0.0, and is the default channel otherwise |
| Channels.RequestFor | device/src/channel/mod.rs:39-53 | Int16 reads one input register, Real32 two, BoolType one coil, all at the channel's index |
| Channels.ReadValue | device/src/channel/mod.rs:38-61 | only the value changes; a failed read changes nothing; Int16 takes the word, Real32 the binary32 of high and low word, and a coil reads inverted (asserted 0.0, clear 1.0) |
| Channels.ReadValueIdempotent | device/src/channel/mod.rs:38-61 | applying the same reply twice is applying it once |
| Channels.CoilInversion | device/src/channel/mod.rs:52-58 | an asserted coil reads 0.0 and a clear one 1.0, from any previous value |
| Devices.Initialize | device/src/lib.rs:78-105 | twenty default channels with ids equal to their positions and owned by device `id`; Modbus, status "Initialized", scan rate 1, TCP 127.0.0.1:502, empty data block |
| Devices.DefaultDevice | device/src/lib.rs:128-157 | twenty default channels with ids equal to their positions; device id 0, empty name, Modbus, status "Initialized", scan rate 1, TCP 127.0.0.1:502 |
| Devices.Contribution | device/src/lib.rs:172-179 | a disabled or Bool channel pushes nothing, an enabled Int16 or Real32 channel pushes its own index first, and at most two addresses are pushed |
| Devices.Contributed | device/src/lib.rs:171-180 | the addresses pushed by all channels in channel order; by ContributedMembership an address is in it exactly when some channel pushes it |
| Devices.NextAddress | device/src/lib.rs:176 | `index + 1` on a u16 is the successor below the top address |
| Devices.MinOf | device/src/lib.rs:182 | the minimum is an element and bounds all elements from below |
| Devices.MaxOf | device/src/lib.rs:183 | the maximum is an element and bounds all elements from above |
| Devices.Window | device/src/lib.rs:182-188 | `min..=max` of the pushed addresses, empty when none is pushed; by WindowShape it is gap-free from the least to the greatest pushed address and covers every one |
| Devices.WordRange | device/src/lib.rs:187 | `min..=max` is the gap-free ascending run from min to max |
| Devices.RegisterWindow | device/src/lib.rs:165-190 | the window is empty exactly when nothing is pushed, and otherwise starts and ends at pushed addresses |
| Devices.GetRegisterList | device/src/lib.rs:165-190 | the method computes the window of the addresses pushed by enabled Int16/Real32 channels |
| Devices.ContributedMembership | device/src/lib.rs:171-180 | an address is pushed exactly when some channel pushes it |
| Devices.ContributedEmptyIff | device/src/lib.rs:171-180 | nothing is pushed exactly when every channel pushes nothing |
| Devices.WindowEmptyIff | device/src/lib.rs:171-189 | the window is empty exactly when no enabled channel is Int16 or Real32 |
| Devices.WindowShape | device/src/lib.rs:182-188 | a non-empty window is gap-free from the least to the greatest pushed address and covers all of them |
| Devices.PushedInWindow | device/src/lib.rs:173-188 | every pushed address lies in the window |
| Devices.Real32InWindow | device/src/lib.rs:174-177 | an enabled Real32 channel below 0xFFFF has both `index` and `index + 1` in the window |
| Devices.WindowIgnoresIdleChannels | device/src/lib.rs:171-178 | replacing a disabled or Bool channel by another never changes the window |
| Devices.ThreeWordWindow | device/src/lib.rs:165-190 | Int16 channels at 10, 11, 12 give the window [10, 11, 12] |
| Devices.LastPosition | device/src/lib.rs:202-203 | the last list position naming an address, or none exactly when the address is absent |
| Devices.Decoded | device/src/lib.rs:200-218 | one channel's decode panics exactly when it is enabled, not Bool, and some list position naming its index lacks its words; otherwise only its value may change |
| Devices.DecodedAll | device/src/lib.rs:199-219 | a successful decode keeps one channel per channel |
| Devices.DecodeDevice | device/src/lib.rs:192-223 | a successful decode changes only the channels and keeps their number |
| Devices.DecodedAllSpec | device/src/lib.rs:200-219 | decoding all channels fails exactly when one channel's decode fails, and otherwise decodes each channel in place |
| Devices.ChannelValuesFromBuffer | device/src/lib.rs:192-223 | the method returns the specified decode, none when an index would run past the buffer, the device unchanged for an empty buffer |
| Devices.DecodeKeepsShape | device/src/lib.rs:198-222 | only channel values change, the channel order is kept, and disabled, Bool and unlisted channels are untouched |
| Devices.WordsValue | device/src/lib.rs:203-213 | the value the match arms decode at a list position; by DecodedValue an Int16 channel takes that word and a Real32 channel that word and the next as high and low half |
| Devices.DecodedValue | device/src/lib.rs:203-213 | an enabled Int16 channel takes the word at the last position naming its index; a Real32 channel takes that word and the next as high and low half |
| Devices.BulkDecodeAgreesWithReadValue | device/src/lib.rs:203-213 | the bulk decoder agrees with `read_value` given the same words |
| Devices.ChannelFitsWindow | device/src/lib.rs:174-210 | in its own window no enabled channel below the top address reads past a buffer of the window's length |
| Devices.WindowDecodeNeverOverruns | device/src/lib.rs:192-223 | decoding a reply as long as the device's own window never indexes past it, when no Real32 channel sits at 0xFFFF |
| Devices.WindowDecodedValue | device/src/lib.rs:202-213 | within its own window a channel at address a reads the reply word at offset a - window start |
| Devices.TopAddressReal32Overruns | device/src/lib.rs:176-210 | a Real32 channel at 0xFFFF wraps its second address to 0, spans the whole address space, and its second word lies past the buffer |
| ChannelPatterns.DefaultChannelPattern | logger/src/channel_pattern.rs:17-23 | the default pattern is empty |
| ChannelPatterns.Split | logger/src/channel_pattern.rs:35-43 | `split` yields at least one piece and no piece contains the separator |
| ChannelPatterns.SplitJoin | logger/src/channel_pattern.rs:35 | joining the pieces with the separator gives the string back |
| ChannelPatterns.SplitCount | logger/src/channel_pattern.rs:43-44 | there is one more piece than there are separators |
| ChannelPatterns.RemoveSpaces | logger/src/channel_pattern.rs:45 | `replace(" ", "")` leaves no space and never lengthens |
| ChannelPatterns.RemoveSpacesEmptyIff | logger/src/channel_pattern.rs:45-47 | a half is blank exactly when it holds only spaces |
| ChannelPatterns.DigitValue | logger/src/channel_pattern.rs:53 | a decimal digit's value is its distance from `'0'`, below ten |
| ChannelPatterns.DigitsValue | logger/src/channel_pattern.rs:53 | `parse::<usize>` of n digits is below 10^n |
| ChannelPatterns.MatchAt | logger/src/channel_pattern.rs:52-57 | a match starting at a position ends after it and within the string |
| ChannelPatterns.Captures | logger/src/channel_pattern.rs:52-57 | `captures_iter` finds at most one capture per remaining character |
| ChannelPatterns.HalfId | logger/src/channel_pattern.rs:48-61 | a half resolves to no id exactly when nothing is captured, and otherwise to one of its captures; which one, the last, is fixed by the definition and shown by LastCaptureWins |
| ChannelPatterns.LastCapture | logger/src/channel_pattern.rs:48-61 | the capture loop keeps the last match's id |
| ChannelPatterns.LastCaptureWins | logger/src/channel_pattern.rs:52-56 | every match is reported and the last wins: a half of two tokens, such as "CH1CH2", captures both ids and resolves to the second |
| ChannelPatterns.PieceIds | logger/src/channel_pattern.rs:43-72 | a piece without exactly one `-` contributes nothing, and what a piece contributes is a gap-free ascending run |
| ChannelPatterns.NamespaceIds | logger/src/channel_pattern.rs:42-73 | every id of a namespace comes from one of its pieces |
| ChannelPatterns.PieceNeedsOneDash | logger/src/channel_pattern.rs:43-72 | a piece without exactly one `-` contributes nothing |
| ChannelPatterns.BlankBeginSkipped | logger/src/channel_pattern.rs:45-47 | a range whose begin half is blank contributes nothing |
| ChannelPatterns.BlankEndSkipped | logger/src/channel_pattern.rs:45-47 | a range whose end half is blank contributes nothing |
| ChannelPatterns.UnmatchedHalfSkipped | logger/src/channel_pattern.rs:62 | a range with a half the regex does not match contributes nothing |
| ChannelPatterns.PieceRange | logger/src/channel_pattern.rs:62-68 | a matched range contributes begin..=end ascending, and nothing when begin > end |
| ChannelPatterns.HalfIdNotBlank | logger/src/channel_pattern.rs:45-61 | a half the regex matches is never blank |
| ChannelPatterns.NoStemNoId | logger/src/channel_pattern.rs:52-56 | a half without the regex's first letter resolves to no id |
| ChannelPatterns.SpacedToken | logger/src/channel_pattern.rs:52-56 | a half made of spaces around one token resolves to the token's digits |
| ChannelPatterns.NamespaceIdsAppend | logger/src/channel_pattern.rs:42-73 | resolving concatenated piece lists concatenates the ids, duplicates kept |
| ChannelPatterns.Resolve | logger/src/channel_pattern.rs:24-111 | the empty pattern is the only error, with its message; otherwise all channel entries in piece order, then all calculation entries, each a default entry carrying its id |
| ChannelPatterns.PushRange | logger/src/channel_pattern.rs:66-68 | the push loop appends begin..=end |
| ChannelPatterns.CollectIds | logger/src/channel_pattern.rs:42-73 | one namespace loop collects the specified ids of every piece |
| ChannelPatterns.ConstructChannelVec | logger/src/channel_pattern.rs:113-124 | one default channel per id, in order, carrying that id |
| ChannelPatterns.ConstructCalcVec | logger/src/channel_pattern.rs:125-136 | one default calculation per id, in order, carrying that id |
| ChannelPatterns.ParsePattern | logger/src/channel_pattern.rs:24-111 | the method returns the specified resolution |
| ChannelPatterns.TestPatternPieces | logger/src/channel_pattern.rs:149 | the unit test's pattern splits into its seven pieces |
| ChannelPatterns.TestPiece | logger/src/channel_pattern.rs:149-153 | what each of the seven pieces contributes to each namespace |
| ChannelPatterns.TestChannelIds | logger/src/channel_pattern.rs:149-152 | the channel namespace of the test pattern is 4, 5, 6, 7, 1, 2, 1, 1, 2 |
| ChannelPatterns.TestCalculationIds | logger/src/channel_pattern.rs:149-153 | the calculation namespace of the test pattern is 1, 2, 3 |
| ChannelPatterns.ParsePatternTest | logger/src/channel_pattern.rs:147-162 | the unit test: ids 4, 5, 6, 7, 1, 2, 1, 1, 2, 1, 2, 3 |
| Loggers.DefaultLoggerType | logger/src/lib.rs:26-30 | the default sink is a text file |
| Loggers.LoggerTypeName | logger/src/lib.rs:31-38 | DataBase displays as "Database" and TextFile as "Text File" |
| Loggers.LoggerTypeNameInjective | logger/src/lib.rs:31-38 | the two sinks display differently |
| Loggers.NewLogger | logger/src/lib.rs:39-61 | fails exactly when the pattern resolution fails (exactly for the empty pattern), with its message; otherwise the channels are the resolved entries and every other field is copied |
| Loggers.NewLoggerOnTestPattern | logger/src/lib.rs:49-54 | a logger over the unit test's pattern records the ids 4, 5, 6, 7, 1, 2, 1, 1, 2, 1, 2, 3 |
| Server.AsI32 | server/src/main.rs:310-311 | `as i32` keeps the value modulo 2^32 in the signed range and is the identity below 2^31 |
| Server.NextRecordId | server/src/main.rs:297-303 | the autoincrement key is positive and above every existing key |
| Server.Row | server/src/main.rs:310-313 | the INSERT parameters of one channel; by ChannelRowsAt the k-th row of a device is this row for its k-th channel |
| Server.ChannelRowsAt | server/src/main.rs:308-316 | the k-th row of a device is the row of its k-th channel |
| Server.DataRowsCount | server/src/main.rs:307-319 | a log writes exactly one data row per channel |
| Server.ChannelRows | server/src/main.rs:308-318 | every row of a device references the log's record |
| Server.DataRows | server/src/main.rs:307-319 | every data row of a log references that log's record |
| Server.AfterLog | server/src/main.rs:294-320 | a log appends exactly one record, stamped with the log's timestamp, and only appends to both tables |
| Server.AfterLogValid | server/src/main.rs:294-320 | logging adds one record, keeps record keys increasing and every data row pointing at an existing record |
| Server.ElapsedSecs | server/src/main.rs:243 | at least one whole second has elapsed exactly when the clock has advanced by a second or more |
| Server.LogGate | server/src/main.rs:242-243 | a frame is logged exactly when it is text, parses as device data, and the clock has advanced LOG_RATE seconds since the timer |
| Server.Step | server/src/main.rs:226-253 | one frame broadcasts at most one message and only appends to the broadcasts and the database |
| Server.Run | server/src/main.rs:225-254 | the receive loop only appends to the broadcasts and to both tables |
| Server.StepLogsIff | server/src/main.rs:242-248 | a frame changes the database exactly when it is text, parses as device data and the timer has run out, and then adds one record |
| Server.StepTimer | server/src/main.rs:243-247 | the timer is reset only by a log |
| Server.Broadcasts | server/src/main.rs:225-254 | the `tx.send` calls of the receive loop; by RunBroadcasts one message per text or binary frame, in order, tagged with the connection's id |
| Server.RunBroadcasts | server/src/main.rs:225-254 | every text and binary frame, logged or not, is broadcast once, in order, tagged with the connection's id; other frames are ignored |
| Server.NonTextNeverLogged | server/src/main.rs:227-252 | binary, ping, pong and close frames never touch the database or the timer |
| Server.RunKeepsDbValid | server/src/main.rs:222-255 | the receive loop preserves the database's integrity |
| Server.LogRateBound | server/src/main.rs:243-247 | n logs take at least n seconds of clock time |
| Server.Forwarded | server/src/main.rs:207-214 | a connection is forwarded no more messages than were broadcast, and no forwarded message carries the receiver's id |
| Server.ForwardedMembership | server/src/main.rs:209 | a broadcast is forwarded exactly when it comes from another client |
| Server.ForwardedAppend | server/src/main.rs:207-214 | forwarding a concatenation forwards each part |
| Server.NoSelfEcho | server/src/main.rs:209-240 | a connection never receives its own broadcasts, and receives every broadcast of another connection |
| Server.AppState.constructor | server/src/main.rs:63-104 | the state starts with no client, nothing broadcast and the database as found |
| Server.AppState.IsRegistered | server/src/main.rs:283-292 | the result says whether the id was already known; afterwards it is registered |
| Server.AppState.Leave | server/src/main.rs:277-280 | the leaving id is removed and no other id changes |
| Server.AppState.InsertChannelRows | server/src/main.rs:308-318 | the inner loop appends one row per channel of one device, in order, and changes nothing else |
| Server.AppState.LogData | server/src/main.rs:294-320 | one record, then one row per channel of each device in order, each (channel id, device id, value) under the new record |
| Server.AppState.ReceiveTask | server/src/main.rs:222-255 | the loop's broadcasts, database and timer are those of the specified run |
| Server.SendTask | server/src/main.rs:206-215 | the messages written are a prefix of the other clients' broadcasts, each send having succeeded, stopping at the first refused send |

## Left out

- I/O is left out: Modbus and serial connections (`Device::connect`), the reads inside `read_value`, sockets, SQLite and SQL text, HTTP routing, static files and printing. A device reply is a `Reply` parameter. The database is two tables of rows.
- Concurrency is left out: the tokio tasks, the `select!` that aborts one task when the other ends, the client-set mutex, and the GUI's worker threads and queues. The two websocket loops are modelled separately over the frames and broadcasts they receive.
- The broadcast channel is modelled as the sequence of messages handed to it. Its capacity of 3, the lag errors it can report (which end a send loop) and the lost sends when nobody listens are not modelled.
- Inputs the model takes as given:
  - the receive loop's frames are those received before the stream ends or errs;
  - the send loop's messages are those received before `recv` fails.
- Clocks and identifiers are inputs: `Instant` readings in nanoseconds, the wall-clock timestamp of each log, and each connection's id. UUID generation is not modelled.
- Library decoders are passed-in functions: `serde_json::from_str` and `String::from_utf8_lossy`.
- Server.AppState.LogData: the `Data` table's own `data_id` key is not modelled.
- Server.AppState.LogData: a failed INSERT panics the receive task (`unwrap`). The frame that triggered the log is then not broadcast, nor is any later frame, and a record may be left with only part of its data rows. The model assumes every insert succeeds.
- Server.AppState.constructor: the database found at start is assumed to have increasing record keys and no data row without its record. A database written only by this program has both. SQLite does not enforce the foreign key by default, so another writer could break the second.
- Server.NextRecordId: `AUTOINCREMENT` is modelled as one past the last record's key. SQLite takes one past the largest key ever issued (its `sqlite_sequence` table), which is higher for a database that already had records deleted.
- Channels.ReadValue: the protocol client is assumed to return exactly the requested number of words or bits. A shorter reply, on which the code's indexing would panic, is not modelled.
- `fetch_data` is an empty placeholder with nothing to model. `Device::new` and `Display for Device` are plain field copies.
- Channels.ReadValue, Alarms.Alarm.ProcessAlarm: these `&mut self` updates are modelled as functions returning the updated value. `Channel` and `Alarm` are plain values, copied into and out of devices, so nothing in the model is shared.
- Alarms.Alarm.ProcessAlarm: values and setpoints are reals. Comparisons involving NaN are not modelled.
- Float32.F32FromBits: signed zero is not distinguished from zero. Byte order is taken to be the platform's native order on both sides, so the bit pattern is kept.
- ChannelPatterns.Resolve:
  - The regular expressions are modelled only in the shape the code uses: a stem, one or more of a repeated non-digit letter, then digits. General regexes are not modelled.
  - The `usize` overflow of the digit parse and of `end_id + 1` does not arise with unbounded ids, so a parse never fails.
- Devices.GetRegisterList: a debug build panics on the `u16` overflow of `index + 1`. The model follows a release build, which wraps.
- The GUI, the second older relay in `axum_server/src/main.rs`, and the unused Allen-Bradley stub are outside the modelled core.
