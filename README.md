# LJR recorder

This project models `LdLjrRecorder`, the LeddarTech SDK component that
records a sensor to an LJR file. An LJR file holds one JSON text per line
(section 2 of RFC 8259). The model covers these parts:

- **Starting a recording.** `StartRecording` checks the path, opens the
  file, and writes a `header` line and then a `prop` snapshot line.
- **Frames.** Data notifications carrying the same timestamp collect
  their `states` and `echoes` members into one open
  `{"frame":{"ts":..,...}}` object. That object is written as one line
  when the timestamp changes, when a property changes (which also writes
  its own `prop` line), or when `StopRecording` closes the file.
- **Typed properties.** Seven property types are written as JSON values.
  An integer is written signed or unsigned, and the snapshot entry
  carries the type's metadata (limits, signedness, enum table).
- **Echoes.** Each echo is written as a 4-element array.

Modules:

- `Wrappers`: `Option`, `Result`, and the three exceptions the recorder
  raises.
- `Json`: the tokens a rapidjson `Writer` emits, and the writer itself as
  a class whose buffer is a token sequence. It also defines an automaton
  over tokens that tracks the writer's stack of open objects and arrays
  and its root flag. `Document(s)` means the automaton accepts `s` as
  exactly one complete JSON text.
- `Properties`: the property types and the tokens written for one
  property's values, its `{"id","val"}` object and its snapshot entry. It
  also has a decoder for the `val` member, with a round trip proved
  against it.
- `Paths`: the existence checks, the default file name and the `.ljr`
  suffix rule.
- `Frames`: the token sequence of every kind of line. It proves that each
  line is a `Document`, defines the frame state machine (`Next`, `Replay`)
  with its properties, and proves a read-back of the echo arrays.
- `Recorder`: the class `LjrRecorder`. Its fields are the file (`isOpen`,
  `path`, `lines`), the writer, and `lastTimestamp` (`mLastTimestamp`).
  Its methods follow the C++ methods one for one, with loops where the C++
  has loops.
  - The class invariant `Valid()` holds between notifications. It says
    that every line written is a `Document` and that the echo lock is
    released. It also says the buffer is empty when no frame is open and
    holds the open frame's text otherwise.
  - `Callback`'s contract ties every notification to the pure state
    machine `Frames.Next`, whose lemmas state the coalescing behaviour.

## Model

| member | source | states |
|---|---|---|
| Recorder.LjrRecorder.constructor | src/Leddar/LdLjrRecorder.cpp:29-34 | a new recorder has no file open, has written no line, has no frame open (`mLastTimestamp` 0), and its writer is fresh |
| Recorder.LjrRecorder.StartRecording | src/Leddar/LdLjrRecorder.cpp:77-124 | the result is the path the checks of `Paths.StartTarget` choose, or the exception they raise; `RuntimeError(errno)` when the file cannot be created. On any exception no field changes. On success the file is open on exactly the returned path, holds exactly the header line and then the snapshot line, and no frame is open |
| Recorder.LjrRecorder.StopRecording | src/Leddar/LdLjrRecorder.cpp:134-147 | writes exactly the open frame's line (closing its two objects) when a frame is open in an open file, and nothing otherwise. A second stop writes nothing. The file is closed afterwards and the invariant holds |
| Recorder.LjrRecorder.AddFileHeader | src/Leddar/LdLjrRecorder.cpp:157-181 | appends exactly one line, `{"header":{"prot_version","devicetype","protocol","timestamp"}}`, with the connection type as a `uint16_t`. The line is a complete text, so the `logic_error` branch is never taken, and the writer is left cleared and reset |
| Recorder.LjrRecorder.AddAllProperties | src/Leddar/LdLjrRecorder.cpp:191-260 | appends exactly one line, `{"prop":[...]}`, with one snapshot entry per persisted property that has values, in registry order. The loop invariant is the entries of the properties seen so far. The line is a complete text |
| Recorder.LjrRecorder.AddSnapshotEntry | src/Leddar/LdLjrRecorder.cpp:206-245 | appends `{"id":..}`, then the type's metadata, then the `val` member, then closes the object |
| Recorder.LjrRecorder.AddMetadata | src/Leddar/LdLjrRecorder.cpp:210-241 | appends `limits` for a float, `signed` and then `limits` for an integer, and the `enum` object holding the text-to-value table in table order for an enum (loop invariant: the entries so far). Other types get nothing |
| Recorder.LjrRecorder.AddPropertyValues | src/Leddar/LdLjrRecorder.cpp:274-359 | appends nothing without values, `"val":v` for one value, and `"val":[v0,..]` in index order for more. The loop invariant is the values written so far |
| Recorder.LjrRecorder.AddProperty | src/Leddar/LdLjrRecorder.cpp:372-381 | appends `{"id":..}` followed by the values, then closes the object |
| Recorder.LjrRecorder.Callback | src/Leddar/LdLjrRecorder.cpp:395-443 | with no file open, nothing changes. Otherwise the lines written and the new frame state are exactly those of `Frames.Next` for the notification. The invariant holds and the file stays open |
| Recorder.LjrRecorder.DataCallback | src/Leddar/LdLjrRecorder.cpp:400-431 | a `states` or `echoes` notification writes what `Frames.Next` writes and leaves the frame `Next` computes: the frame at the data's timestamp, with the payload appended |
| Recorder.LjrRecorder.WritePayload | src/Leddar/LdLjrRecorder.cpp:402-430 | appends the payload member to the buffer and to the open frame, and leaves the echo lock released |
| Recorder.LjrRecorder.EnterFrame | src/Leddar/LdLjrRecorder.cpp:404-412 | keeps the open frame when the timestamp is the same. Otherwise it writes the open frame's line (if a frame is open) and starts a frame at the new timestamp, as `Frames.Enter` says |
| Recorder.LjrRecorder.StartFrame | src/Leddar/LdLjrRecorder.cpp:455-462 | the buffer holds exactly `{"frame":{"ts":ts` and the frame has no payload |
| Recorder.LjrRecorder.EndFrame | src/Leddar/LdLjrRecorder.cpp:472-479 | appends exactly the closed frame line, which is a complete text, and leaves the writer cleared and reset |
| Recorder.LjrRecorder.StatesCallback | src/Leddar/LdLjrRecorder.cpp:490-504 | appends `"states":[...]`, with the `{"id","val"}` objects of the persisted properties that have values, in order (loop invariant: the objects so far) |
| Recorder.LjrRecorder.EchoesCallback | src/Leddar/LdLjrRecorder.cpp:515-538 | appends `"echoes":[...]`, with one array per echo for exactly the first `count` echoes in buffer order (loop invariant: the arrays so far). The echo lock is held throughout the loop (loop invariant) and released on return |
| Recorder.LjrRecorder.PropertyCallback | src/Leddar/LdLjrRecorder.cpp:548-562 | appends exactly the line `{"prop":[{"id":..,"val":..}]}`, which is a complete text, and leaves the writer cleared and reset |
| Recorder.LjrRecorder.Flush | src/Leddar/LdLjrRecorder.cpp:257-259 | appends the buffered complete text as one line, then clears the buffer and resets the writer |
| Paths.SuffixRule | src/Leddar/LdLjrRecorder.cpp:108-111 | the rule keeps the path or appends `.ljr` to it, so the given path is always a prefix of the result. It appends only to a path that does not already end in `.ljr`. Afterwards the path ends in `.ljr` (in any case) iff it is longer than 4 characters or already did |
| Paths.SuffixPresent | src/Leddar/LdLjrRecorder.cpp:108-111 | a path longer than 4 characters always ends in `.ljr` (in some case) after the rule |
| Paths.SuffixIdempotent | src/Leddar/LdLjrRecorder.cpp:108-111 | applying the rule twice is applying it once |
| Paths.SuffixEdgeCases | src/Leddar/LdLjrRecorder.cpp:108-111 | `x.LJR` is kept as it is, and a 4-character path gets no suffix |
| Paths.DefaultTarget | src/Leddar/LdLjrRecorder.cpp:91-111 | an empty path records to `<device name>_<stamp>.ljr`, or to `UnknownDevice_<stamp>.ljr` without a device-name property |
| Paths.StartTargetAsWritten | src/Leddar/LdLjrRecorder.cpp:79-114 | the checks as written. An existing `aPath` gives `invalid_argument`, and otherwise a running recording gives `logic_error`. A start succeeds iff nothing is recording and `aPath` does not exist; the existence of the final path is not consulted. The opened path is a fixed point of the suffix rule and extends a non-empty `aPath` |
| Paths.StartTargetChecks | src/Leddar/LdLjrRecorder.cpp:79-114 | an existing `aPath` gives `invalid_argument` before the `logic_error` of a running recording. A start succeeds iff nothing is recording and neither `aPath` nor the final path exists. The opened path is new, and the suffix rule leaves it unchanged |
| Paths.AsWrittenOverwrites | src/Leddar/LdLjrRecorder.cpp:79-114 | as written, `StartRecording("record")` opens an existing `record.ljr`; the corrected checks refuse it |
| Paths.StartTargetRefinesAsWritten | src/Leddar/LdLjrRecorder.cpp:79-114 | the corrected checks only add a refusal: every start they allow is allowed as written, with the same path, and every exception raised as written is kept |
| Properties.ToUint16 | src/Leddar/LdLjrRecorder.cpp:167 | `ValueT<uint16_t>` is the value modulo 2^16, and it keeps any value that fits |
| Properties.ToUint32 | src/Leddar/LdLjrRecorder.cpp:329 | `ValueT<uint32_t>` is the value modulo 2^32, and it keeps any value that fits |
| Properties.ToInt32 | src/Leddar/LdLjrRecorder.cpp:325 | `ValueT<int32_t>` is the two's-complement wrap into [-2^31, 2^31), and it keeps any value that fits |
| Properties.Scalar | src/Leddar/LdLjrRecorder.cpp:286-349 | each value becomes one scalar token, and an integer becomes an `Int64` token exactly when the property is signed |
| Properties.PersistedMembers | src/Leddar/LdLjrRecorder.cpp:197 | `FindPropertiesByFeature(F_SAVE)` keeps exactly the persisted properties |
| Properties.NonEmptyMembers | src/Leddar/LdLjrRecorder.cpp:203-204 | the filter on `Count()` keeps exactly the properties with values |
| Properties.EntriesSkipEmpty | src/Leddar/LdLjrRecorder.cpp:203-204 | the snapshot entries and the `states` objects are those of the properties with values and no others |
| Properties.ElementsOfValueTokens | src/Leddar/LdLjrRecorder.cpp:276-284 | the `val` member holds exactly the value tokens, in index order, for every count |
| Properties.RoundTrip | src/Leddar/LdLjrRecorder.cpp:274-359 | given the property's type, the `val` member gives back the count and every value, in index order, for every type whose integers fit their C++ type |
| Properties.ValuesRoundTrip | src/Leddar/LdLjrRecorder.cpp:286-349 | the scalars of each of the seven types decode back to the values |
| Properties.IntegersRoundTrip | src/Leddar/LdLjrRecorder.cpp:320-333 | signed and unsigned integers that fit `int32_t` or `uint32_t` are written unchanged |
| Properties.SignedOverflowWraps | src/Leddar/LdLjrRecorder.cpp:323-326 | a signed value of 2^31 is written, and read back, as -2^31 |
| Properties.ValueTokensRun | src/Leddar/LdLjrRecorder.cpp:276-358 | the `val` member is accepted wherever a key may come, and counts as one key and one value (nothing without values) |
| Properties.MetadataRun | src/Leddar/LdLjrRecorder.cpp:210-241 | the metadata members are accepted wherever a key may come |
| Properties.EnumTableRun | src/Leddar/LdLjrRecorder.cpp:234-238 | the enum table adds one key and one value per entry to its object |
| Properties.SnapshotEntryRun | src/Leddar/LdLjrRecorder.cpp:206-245 | a snapshot entry is one complete JSON value |
| Properties.PropertyTokensRun | src/Leddar/LdLjrRecorder.cpp:374-380 | a `{"id","val"}` object is one complete JSON value |
| Frames.HeaderLineIsDocument | src/Leddar/LdLjrRecorder.cpp:159-172 | the header line is one complete JSON text |
| Frames.SnapshotLineIsDocument | src/Leddar/LdLjrRecorder.cpp:193-250 | the snapshot line is one complete JSON text |
| Frames.PropLineIsDocument | src/Leddar/LdLjrRecorder.cpp:550-555 | a property line is one complete JSON text |
| Frames.FrameLineIsDocument | src/Leddar/LdLjrRecorder.cpp:457-461 | a frame line, once `EndFrame` or `StopRecording` closes its two objects, is one complete JSON text whatever payloads it holds |
| Frames.FrameTextIncomplete | src/Leddar/LdLjrRecorder.cpp:136 | an open frame is a non-empty buffer that is not a complete text. So `StopRecording`'s test identifies an open frame, and a reset writer (empty buffer) is not mistaken for one |
| Frames.EchoRowsRun | src/Leddar/LdLjrRecorder.cpp:524-531 | the echo arrays are one array element each |
| Frames.EchoRowsRoundTrip | src/Leddar/LdLjrRecorder.cpp:524-531 | the arrays of the first `n` echoes are 6n tokens and read back as exactly those echoes in order: channel, distance over its scale, amplitude over its scale, flag |
| Frames.EchoesPayloadRoundTrip | src/Leddar/LdLjrRecorder.cpp:515-538 | the `echoes` member lists exactly the buffer's first `count` echoes, in buffer order |
| Frames.Enter | src/Leddar/LdLjrRecorder.cpp:404-412 | data stamped `ts` always ends in the frame at `ts`, and writes nothing or exactly the line of the frame it leaves |
| Frames.NextData | src/Leddar/LdLjrRecorder.cpp:402-430 | a data notification enters its frame and then appends its payload to that frame |
| Frames.SameTimestampCoalesces | src/Leddar/LdLjrRecorder.cpp:404-415 | data notifications with the open frame's timestamp write no line and append their payloads to that frame in order |
| Frames.OneLinePerTimestampChange | src/Leddar/LdLjrRecorder.cpp:404-430 | from no open frame, a run of data notifications writes one frame line per change of timestamp and leaves the last timestamp's frame open |
| Frames.PropertyChangeIsolates | src/Leddar/LdLjrRecorder.cpp:433-442 | a property change writes the open frame's line (if any) and then exactly one property line. The next data notification then opens a fresh frame without writing anything, whatever its timestamp |
| Json.DocumentIsFinal | src/Leddar/LdLjrRecorder.cpp:257 | nothing can follow a complete text on the same line, so each line holds exactly one JSON text |
| Json.DocumentBalanced | src/Leddar/LdLjrRecorder.cpp:257 | a complete text is non-empty and closes every object and array it opens |

## Left out

- The file system, the clock and `errno` are inputs, not I/O. `Host` holds the existing files, whether the file can be created (and `errno` when it cannot), the time in seconds, and the `strftime` stamp. `Sensor` holds the device name, the device type, the connection type and the property registry. The written file is the sequence `lines`.
- The sensor, connection, states and echo objects are not modelled; their readings are arguments. So is `LJR_PROT_VERSION`, whose header file is not part of this model; it is the constructor's parameter.
- Character-level JSON text and rapidjson's internals are abstracted. The buffer is a sequence of tokens. Doubles are not IEEE values: a `Double` is a real, and an echo's distance and amplitude are kept as (raw value, scale) pairs. Non-finite values are outside the model: every `Num` is a valid token, even for a zero scale, whereas rapidjson writes nothing for infinity or NaN under its default flags, which would leave an invalid line.
- Recorder.LjrRecorder.StartRecording: requires that no closed frame was left in the buffer by an earlier `StopRecording`. `StopRecording` neither clears the buffer nor resets `mLastTimestamp`, so a restart would rely on rapidjson behaviour this model does not cover. The model covers one session per recorder after a stop.
- Recorder.LjrRecorder.StartRecording: uses the corrected checks of `Paths.StartTarget` (see "## Findings"), not the checks as written. When the suffixed or default path already exists but `aPath` does not, the C++ opens and truncates that file and returns its name; the model raises `InvalidArgument` instead. `Paths.StartTargetAsWritten` models the checks as written.
- Paths.WithSuffix: paths are sequences of characters, whereas `std::string::length()` and `compare` count bytes. A short non-ASCII path differs: `"ééé"` is 3 characters but 6 bytes in UTF-8, so the C++ appends `.ljr` where the model does not. `Paths.ToLower` lowers ASCII letters only, and `LtStringUtils::ToLower` is not part of this model.
- Properties.ToUint16: `ValueT<uint16_t>` is taken to be a plain C++ integral conversion (wrap-around modulo 2^16). `ValueT` is defined in `LdIntegerProperty`, which is not part of this model, and it may range-check and throw instead.
- Properties.ToUint32: `ValueT<uint32_t>` is likewise taken to be a plain conversion (wrap-around modulo 2^32).
- Properties.ToInt32: `ValueT<int32_t>` is likewise taken to be a plain two's-complement conversion.
- Recorder.LjrRecorder.Callback: requires that a `states` or `echoes` notification does not carry timestamp 0, which collides with the "no frame open" value of `mLastTimestamp`.
- The `logic_error("invalid json")` branches of `AddFileHeader` and `AddAllProperties` are not modelled as results. The model proves each line a complete text instead, so those branches are never taken.
- The `logic_error("Unhandled property type")` default branch of `AddPropertyValues` (src/Leddar/LdLjrRecorder.cpp:351-352) is not modelled. The property type is a closed datatype of the seven handled types.
- rapidjson's own assertions (one root, keys and values alternating, matching ends) are not preconditions of the writer's methods. The model proves instead that every line it writes is a complete text, which no failing assertion allows.
- The echo buffer lock is a ghost flag. The model shows that the lock is held while the echoes are read and released on return, but not what it excludes between threads.
- The destructor (src/Leddar/LdLjrRecorder.cpp:44-59) calls `StopRecording` and frees the writer; memory management is not modelled.
- Recorder.LjrRecorder.DataCallback and Recorder.LjrRecorder.WritePayload have no C++ counterpart of their own. They are the shared body of `Callback`'s identical `states` and `echoes` branches.
- The signals `Callback` ignores (other signals, other senders, value changes of non-properties) are one `Unrelated` event.

## Findings

| source | as written | input that shows it | evidently intended | confidence | as-written member | corrected member |
|---|---|---|---|---|---|---|
| src/Leddar/LdLjrRecorder.cpp:79-114 | the "file already exists" check tests `aPath`, before the default name is built and `.ljr` appended, and the file is then opened for output (truncated) | `StartRecording("record")` when `record.ljr` exists: `record` does not exist, so `record.ljr` is opened and its contents lost; likewise an empty path whose default name already exists | refuse with `invalid_argument` whenever the file that would be opened already exists | not executed | Paths.AsWrittenOverwrites | Paths.StartTargetChecks |
