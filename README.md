# ESP-Object-Messaging, modelled in Dafny

ESP-Object-Messaging is an ESP32 component for passing named values
between "hosts". A host adapts one source or sink of data: ADC channels,
GPIO ports, pulse counters, servos, joysticks, a VISCA camera link, or an
OBS websocket client.

- **Payloads.** Every value travels as an `ObjMsgData` payload. A payload
  has an origin id, an endpoint name and a typed value: an int, a string,
  a JSON tree, or a 2-axis or 3-axis joystick sample.
- **Text form.** Payloads serialize to `{"name":…, "value":…}`.
- **Factory.** A factory with a name-to-class registry turns such text
  back into payloads. Names that are not registered are delivered as
  strings that carry JSON.
- **Transport.** A bounded queue (`ObjMsgTransport`) carries payloads from
  the hosts that produce them to whoever consumes them.

This project models that core in Dafny and proves properties about it.

**Payload side.** The model has:

- the payload classes;
- the text form for every class;
- the factory, with its registry;
- the transport queue;
- the older copies of the factory, transport and host base that `ObjMsg.h`
  and `ObjMsg.cpp` still carry.

**Host side.** Each host is a Dafny class over the host's own fields:

- a map from endpoint name to channel, port, unit, servo, joystick or
  interface;
- a flag for change events;
- the host's tag and origin.

Hardware reads enter as parameters: a raw ADC count, a pin level, a
pulse count. Hardware configuration leaves as values: the `gpio_config_t`
an `Add` would pass, the pulse-counter channel actions, the servo pulse
width. The periodic task bodies are methods over one sampling step.

**Structure.** Modules follow the source files:

| module | models |
|---|---|
| `CInt` | C integer semantics |
| `Decimal` | `%d` formatting |
| `Json` | cJSON's values, parser and formatted printer |
| `Payload` | `ObjMsgData.h` |
| `Joystick3AxisData` | `Joystick3AxisData.h` |
| `ObjMsgJoystickData` | `ObjMsgJoystickData.h` |
| `Factory` | `ObjMsgDataFactory.cpp` |
| `Transport` | `ObjMsgTransport.cpp` |
| `Legacy` | `ObjMsg.h` and `ObjMsg.cpp` |
| `Host` | the host base |
| one module per host | its `…Host.h` file |

**C semantics.** The model writes out C's behaviour:

- Division truncates toward zero (`CInt.CDiv`).
- Stores into `int16_t` wrap (`CInt.Wrap16`).
- cJSON's `valueint` saturates (`CInt.Saturate32`).

**Undefined behaviour.** Where the source has undefined behaviour, the
model has two definitions, except for the memory errors listed under
"## Left out":

- an "as written" definition whose result can be `Undefined`;
- the behaviour the rest of the model uses.

The "## Findings" section below lists these places.

## Model

| member | source | states |
|---|---|---|
| CInt.CDivTruncates | AdcHost.h:67 | C's `/` truncates toward zero: the remainder is smaller than the divisor, has the dividend's sign, and the quotient's magnitude is at most the exact one |
| CInt.Saturate32 | ObjMsgData.h:294 | `valueint` is the number when it fits in 32 bits and the nearest bound otherwise |
| CInt.Wrap16 | Joystick3AxisHost.h:207-210 | a store into `int16_t` keeps the value modulo 2^16 and leaves in-range values unchanged |
| CInt.WrapU32 | ServoHost.h:67-72 | the `uint32_t` return value is the result modulo 2^32 in [0, 2^32) |
| CInt.ClampMinMax | AdcHost.h:61 | `min(max(x, lo), hi)` lies in [lo, hi] and leaves in-range values unchanged |
| Decimal.IntToString | ObjMsgData.h:310-317 | `sprintf("%d")`: a leading '-' exactly for negatives, followed by digits |
| Decimal.NatToString | ObjMsgData.h:310-317 | non-empty decimal digits without a leading zero |
| Decimal.DigitsValueOfNatToString | ObjMsgData.h:310-317 | reading the printed digits back gives the number |
| Decimal.IntToStringInjective | ObsWsClientHost.h:145 | different integers print differently |
| Decimal.IntToStringLength | ObjMsgData.h:312 | a 32-bit int prints in at most 11 characters (6 for 16 bits), so the 32-byte buffer suffices |
| Json.ToLower | ObjMsgData.h:292 | ASCII case folding for the case-insensitive `cJSON_GetObjectItem` key comparison |
| Json.GetItem | ObjMsgData.h:292 | a member is found only in an object |
| Json.FindMemberFirst | ObjMsgDataFactory.cpp:36 | the lookup succeeds iff some key matches, and returns the first matching member |
| Json.ValueInt | ObjMsgData.h:294 | `valueint` is the number truncated toward zero and saturated to 32 bits, 1 for `true`, and 0 for any other item |
| Json.GetStringValue | ObjMsgDataFactory.cpp:39 | `cJSON_GetStringValue` gives the text exactly for string items |
| Json.Escape | ObjMsgData.h:568 | `cJSON_Print` writes a C string up to its first NUL, and text without quotes, backslashes or control characters unchanged |
| Json.Parse | ObjMsgDataFactory.cpp:33 | `cJSON_Parse` succeeds exactly when a value (null, a boolean, a number, a string, an array or an object) can be read after leading white space; whatever follows the value is ignored |
| Json.ParsePrint | ObjMsgData.h:568 | `Parse` of `Print` gives back every well-formed tree: null, booleans, fractional numbers, escaped strings, arrays and objects, at any depth |
| Json.ParsePrinted | ObjMsgData.h:586 | `ParseValue` on printed text followed by a tail no number can continue reads back the tree and stops at the tail |
| Json.ParseValueNumber | ObjMsgData.h:310-317 | `ParseValue` reads a `%d` integer back as the same number |
| Json.ParseValueString | ObjMsgData.h:476 | `ParseValue` reads a quoted string without quotes or backslashes back as that string |
| Json.Truncated | ObsWsClientHost.h:204 | converting mant·10^exp to an integer truncates toward zero: the magnitude is the integer part and the sign is kept |
| Json.TruncatedRoundsDown | ObsWsClientHost.h:204 | the truncated magnitude is the largest integer whose place value does not exceed the number's |
| Json.WholeFraction | ObjMsgData.h:568 | the printed integer part and fraction digits together give the number back, and the fraction is below its place value |
| Json.NumberTextExamples | ObjMsgData.h:568 | 2.6 prints as `2.6` and -0.05 as `-0.05`, leading fraction zeros kept |
| Json.ParseNumberText | ObjMsgDataFactory.cpp:33 | the number parser reads any printed number, with or without a fraction, back as the same number |
| Json.ParseValueNumberText | ObjMsgDataFactory.cpp:33 | `ParseValue` reads any printed number back |
| Json.ParseValueBool | ObsWsClientHost.h:202 | `true` and `false` read back as the booleans |
| Json.ParseValueNull | ObjMsgDataFactory.cpp:33 | `null` reads back as null |
| Json.StringEndEscape | ObjMsgDataFactory.cpp:33 | the scan for the closing quote steps over every escape the printer writes |
| Json.UnescapeEscape | ObjMsgData.h:568 | decoding the printer's escapes (`\"`, `\\`, `\b` … `\t`, `\u00XX`) gives back any C string |
| Json.ParseStringEscaped | ObjMsgDataFactory.cpp:33 | a printed string body and its closing quote read back as the string, with the rest of the text after it |
| Json.ParseValueEscaped | ObjMsgDataFactory.cpp:33 | `ParseValue` reads any printed string back |
| Json.ParsePrintArray | ObsWsClientHost.h:202 | a printed array `[a, b]` reads back as the same elements in order |
| Json.ParsePrintObject | ObjMsgDataFactory.cpp:33 | a printed object, one member per line, reads back as the same members in order |
| Payload.GetInt | ObjMsgData.h:300-304 | only an int payload yields an int, and it yields its value |
| Payload.GetDouble | ObjMsgData.h:305-309 | only an int payload yields a double, namely its value |
| Payload.GetString | ObjMsgData.h:310-317 | every payload except a JSON payload holding NULL has a text form: the decimal int, the string itself, the printed JSON, or the joystick text |
| Payload.DefaultValue | ObjMsgData.h:285-288 | the value a `Create(origin, name)` gives each class: 0, "", NULL, or a zero sample |
| Payload.ValueText | ObjMsgData.h:467-481 | the serialized value is the string quoted, or unquoted when it is held as JSON, or the class's text form |
| Payload.Closing | ObjMsgData.h:478 | a record closes with "}" or " }" |
| Payload.SerializeAsWritten | ObjMsgData.h:564-572 | `Serialize` is defined except for a JSON payload holding NULL, and agrees with the model's serializer otherwise |
| Payload.Populate | ObjMsgData.h:290-298 | `DeserializeValue` per class: which records it accepts, and the value it stores then |
| Payload.PopulateAsWritten | ObjMsgData.h:456-464 | `DeserializeValue` is undefined for a string payload given a non-string value and for a joystick given a record without all fields, and agrees with `Populate` otherwise |
| Payload.ObjMsgData.constructor | ObjMsgData.h:210-219 | a payload keeps its origin, name and value; `GetOrigin` and `GetName` return them and `IsFromOrigin` holds for the own origin |
| Payload.ObjMsgData.Create | ObjMsgData.h:285-288 | the two-argument `Create` of a class gives a fresh payload with the given origin and name, the class's default value, and those getters |
| Payload.ObjMsgData.DeserializeValue | ObjMsgData.h:113 | the method stores the value `Populate` computes and reports its success |
| Payload.ParseRecord | ObjMsgData.h:231 | a record text `{"name":…, "value":…}` parses to the object with those two members |
| Payload.ParseSerialized | ObjMsgData.h:227-234 | the text `Serialize` writes parses to the record object `{name, value}` |
| Payload.SerializeRoundTrip | ObjMsgData.h:227-234 | deserializing what `Serialize` writes into a payload of the same class gives the value back (a JSON payload gets the whole record) |
| Payload.PopulateWithoutValue | ObjMsgData.h:293-297 | a record without "value" leaves an int or string payload unchanged and fails |
| Payload.PopulateStringFromNumber | ObjMsgData.h:460 | `{"name":"s","value":1}` into a string payload is undefined as written; the model's definition rejects the record |
| Payload.PopulateJoystickFromEmpty | Joystick3AxisData.h:70-73 | a joystick record whose value is `{}` is undefined for both joystick classes as written |
| Payload.SerializeNullJson | ObjMsgData.h:568 | serializing a JSON payload holding NULL is undefined as written; the model prints `null` |
| Payload.IsFromHighOrigin | ObjMsgData.h:86 | `IsFrom` never matches an origin at or above 0x8000, not even its own truncated id |
| Payload.IsFromOwnOrigin | ObjMsgData.h:86 | the unsigned comparison matches exactly the own origin, and agrees with `IsFrom` below 0x8000 |
| Joystick3AxisData.Text | Joystick3AxisData.h:87-95 | the text form of a 3-axis sample fits the 80-byte buffer |
| Joystick3AxisData.Field | Joystick3AxisData.h:70-73 | a field is read iff the value item has that member |
| Joystick3AxisData.Read | Joystick3AxisData.h:67-75 | a 3-axis record is read iff all four fields x, y, z and up are present, and then holds their values |
| Joystick3AxisData.ReadAsWritten | Joystick3AxisData.h:67-75 | the source's read is defined exactly when every field is present |
| Joystick3AxisData.ParseText | Joystick3AxisData.h:87-95 | the text form parses back to the sample's JSON object |
| Joystick3AxisData.ReadAsJson | Joystick3AxisData.h:67-75 | a record holding the sample's object reads back as the sample |
| ObjMsgJoystickData.Text | ObjMsgJoystickData.h:85-93 | the text form of a 2-axis sample fits the 80-byte buffer |
| ObjMsgJoystickData.Field | ObjMsgJoystickData.h:69-71 | a field is read iff the value item has that member |
| ObjMsgJoystickData.Read | ObjMsgJoystickData.h:66-73 | a 2-axis record is read iff x, y and up are present, and then holds their values |
| ObjMsgJoystickData.ReadAsWritten | ObjMsgJoystickData.h:66-73 | the source's read is defined exactly when every field is present |
| ObjMsgJoystickData.ParseText | ObjMsgJoystickData.h:85-93 | the text form parses back to the sample's JSON object |
| ObjMsgJoystickData.ReadAsJson | ObjMsgJoystickData.h:66-73 | a record holding the sample's object reads back as the sample |
| Factory.Register | ObjMsgDataFactory.cpp:16-19 | `insert` adds a class only for a new name, reports whether it did, and keeps every earlier entry |
| Factory.RegisterEachSnoc | ObjMsgDataFactory.cpp:16-19 | registering a list and then one more entry is registering the longer list |
| Factory.Lookup | ObjMsgDataFactory.cpp:21-27 | `dataClasses[name]` returns the registered class, and for an unknown name inserts an empty entry |
| Factory.DeserializeSpec | ObjMsgDataFactory.cpp:29-77 | unnamed or malformed text yields no payload and leaves the registry alone; otherwise the name is looked up, and a delivered payload carries the caller's origin and the record's name |
| Factory.DeserializeAsWritten | ObjMsgDataFactory.cpp:39 | where the source is defined, it agrees with the model's deserializer |
| Factory.ObjMsgDataFactory.constructor | ObjMsgDataFactory.cpp:7 | the factory starts with no classes |
| Factory.ObjMsgDataFactory.RegisterClass | ObjMsgDataFactory.cpp:16-19 | the registry and result are those of `Register` |
| Factory.ObjMsgDataFactory.Create | ObjMsgDataFactory.cpp:21-27 | a payload is made iff the name has a class, with the caller's origin and name and the class's default value |
| Factory.ObjMsgDataFactory.Deserialize | ObjMsgDataFactory.cpp:29-77 | the method returns a fresh payload exactly as `DeserializeSpec` delivers one, for any text cJSON parses |
| Factory.RegisterFirstWins | ObjMsgDataFactory.cpp:18 | a second registration of a name fails and the first class stays |
| Factory.CreateBlocksRegister | ObjMsgDataFactory.cpp:23 | `Create` of an unknown name leaves an empty entry that makes a later registration of that name fail |
| Factory.RecordNamed | ObjMsgData.h:231 | a record's name item is its name |
| Factory.DeserializeSerialized | ObjMsgDataFactory.cpp:42-46 | deserializing a serialized payload whose name is registered to its class yields the same payload |
| Factory.DeserializeUnregistered | ObjMsgDataFactory.cpp:57-62 | a serialized payload with an unregistered name arrives as a JSON-carrying string holding the printed value |
| Factory.NameNotString | ObjMsgDataFactory.cpp:39 | a record whose name is a number is undefined as written; the model delivers nothing |
| Factory.UnregisteredWithoutValue | ObjMsgDataFactory.cpp:57-58 | an unregistered record without "value" is undefined as written; the model delivers nothing |
| Factory.ParsePrintedRecord | ObjMsgDataFactory.cpp:33-36 | a record as any sender's cJSON prints it parses back to itself and is named by its name |
| Factory.DeserializeIntRecord | ObjMsgDataFactory.cpp:42-46 | a printed record for an int class, whatever its value, delivers the value's `valueint` |
| Factory.DeserializeStringRecord | ObjMsgDataFactory.cpp:42-46 | a printed record for a string class delivers its string with escapes decoded, and nothing for a value that is not a string |
| Factory.DeserializePrintedUnregistered | ObjMsgDataFactory.cpp:57-62 | a printed record with an unregistered name arrives as a JSON-carrying string holding its value printed again |
| Factory.DeserializeIntExamples | ObjMsgData.h:290-297 | into an int payload, 2.6 arrives as 2, -2.6 as -2, `true` as 1, `false` as 0, and 5e10 as `INT_MAX` |
| Transport.ObjMessage.constructor | ObjMsg.h:76-80 | a message carries the payload it was made with |
| Transport.EnqueueAllFits | ObjMsgTransport.cpp:8-14 | `Enqueue`d items within the depth all succeed and append in order |
| Transport.FillThenFull | ObjMsgTransport.cpp:13 | `Enqueue` on a full queue fails and changes nothing, because of the zero wait |
| Transport.DrainInOrder | ObjMsgTransport.cpp:16-27 | `Dequeue` as often as there are items yields them in send order and empties the queue |
| Transport.SendThenReceive | ObjMsgTransport.cpp:8-27 | what is sent within the depth is received unchanged, in order |
| Transport.ReceiveEmpty | ObjMsgTransport.cpp:19-20 | `Dequeue` on an empty queue yields nothing and leaves the caller's reference |
| Transport.Slot | ObjMsgTransport.cpp:31 | ring-buffer indices stay inside the queue's storage |
| Transport.ObjMsgTransport.constructor | ObjMsgTransport.cpp:29-32 | a new queue of the given depth is empty |
| Transport.ObjMsgTransport.Send | ObjMsgTransport.cpp:8-14 | the ring buffer's contents change exactly as `Enqueue` says: appended when not full, otherwise unchanged and failing |
| Transport.ObjMsgTransport.Receive | ObjMsgTransport.cpp:16-27 | the oldest message is removed and returned, or nothing happens on an empty queue |
| Legacy.DeserializeSpec | ObjMsg.h:126-166 | the older `deserialize`: delivers only for registered names, with the caller's origin and the record's name |
| Legacy.DeserializeAsWritten | ObjMsg.h:136 | where the source is defined, it agrees with the model |
| Legacy.ObjMsgDataFactory.constructor | ObjMsg.cpp:6 | the older factory starts empty |
| Legacy.ObjMsgDataFactory.RegisterClass | ObjMsg.h:113-116 | the older registration is `Register` |
| Legacy.ObjMsgDataFactory.Create | ObjMsg.h:118-124 | the older create is the newer `Create` |
| Legacy.ObjMsgDataFactory.Deserialize | ObjMsg.h:126-166 | the method delivers what `Legacy.DeserializeSpec` says, for any text cJSON parses |
| Legacy.ObjMsgTransport.constructor | ObjMsg.cpp:34-37 | the older queue starts empty with the given depth |
| Legacy.ObjMsgTransport.Send | ObjMsg.cpp:8-14 | the older send is the newer `Enqueue` |
| Legacy.ObjMsgTransport.Receive | ObjMsg.cpp:16-27 | the older receive is the newer `Dequeue` |
| Legacy.ObjMsgHost.constructor | ObjMsg.h:212-217 | the older host keeps its transport, tag and origin |
| Legacy.ObjMsgHost.Consume | ObjMsg.h:218 | the base host accepts nothing |
| Legacy.ObjMsgHost.Produce | ObjMsg.h:219-222 | producing sends on the host's transport |
| Legacy.AgreesWithNewer | ObjMsg.h:149-152 | the older and newer `Deserialize` agree on registered names; for an unregistered name the older one delivers nothing where the newer delivers a JSON-carrying string iff a value is present |
| Legacy.DeserializeSerialized | ObjMsg.h:137-143 | the older factory also returns a serialized registered payload unchanged |
| Legacy.DeserializeUnregistered | ObjMsg.h:149-152 | the older factory drops payloads with unregistered names and records the name |
| Legacy.NameNotString | ObjMsg.h:136 | the older factory has the same undefined case for a numeric name |
| Legacy.DeserializeIntRecord | ObjMsg.h:136-143 | the older factory also delivers the `valueint` of any printed record for an int class |
| Legacy.DeserializePrintedUnregistered | ObjMsg.h:149-152 | the older factory drops any printed record with an unregistered name |
| Host.Sense | GpioHost.h:202-210 | the new stored value is the level, and the change is +1, -1 or 0 exactly for a rise, a fall or none |
| Host.ObjMsgHost.constructor | ObjMsg.h:212-217 | the host keeps its transport, tag and origin |
| Host.ObjMsgHost.Consume | ObjMsg.h:218 | the base host accepts nothing |
| Host.ObjMsgHost.Produce | ObjMsgDataFactory.cpp:9-12 | producing is sending on the transport |
| AdcHost.ValueX2AsWritten | AdcHost.h:64-73 | the piecewise-linear doubled value divides by zero exactly on a zero-length segment |
| AdcHost.ValueX2 | AdcHost.h:64-73 | agrees with the source wherever it is defined, and gives the reference value on a zero-length segment |
| AdcHost.AdcChannel.constructor | AdcHost.h:25-41 | a channel spans 0..maxCount to min..max, with one segment and the reference at full scale |
| AdcHost.AdcChannel.Configure | AdcHost.h:142 | re-adding a name overwrites the stored channel with a fresh one |
| AdcHost.AdcChannel.SetReference | AdcHost.h:45-49 | the current raw count becomes the reference point for the given value; nothing else changes |
| AdcHost.AdcChannel.SetValue | AdcHost.h:58-77 | the raw count is clamped to the range, and the value is the rounded reading of the scaling |
| AdcHost.AdcHost.constructor | AdcHost.h:107-119 | a new host has no channels and no change events |
| AdcHost.AdcHost.Add | AdcHost.h:132-153 | the name maps to a channel with the given scaling, the same slot when re-added; change events are noted; the name is registered as an int class |
| AdcHost.AdcHost.MeasureChannel | AdcHost.h:171-177 | measuring stores and returns the scaled reading |
| AdcHost.AdcHost.Measure | AdcHost.h:158-166 | measuring an unknown name returns `INT_MIN`; measuring a known one returns its reading, stores the raw count clamped to 0..rMax and keeps the channel's scaling, mode, hysteresis and ADC channel |
| AdcHost.AdcHost.SampleChannel | AdcHost.h:212-225 | a change-event channel is measured (raw count clamped to 0..rMax) and publishes iff its value moved by more than the hysteresis; the queue gains exactly that payload; any other channel is unchanged, and the ADC channel always stays |
| AdcHost.RoundHalfAwayFromZero | AdcHost.h:75 | `Round` halves the doubled value, off by at most one half, and rounds halves away from zero |
| AdcHost.RoundDoubled | AdcHost.h:75 | an even doubled value halves exactly |
| AdcHost.FreshChannelEnds | AdcHost.h:25-41 | a fresh channel reads min at raw 0 and max at full scale |
| AdcHost.FreshChannelZero | AdcHost.h:72 | a fresh channel reads min at raw 0 |
| AdcHost.FreshChannelFull | AdcHost.h:67 | the model's fresh channel reads max at full scale |
| AdcHost.FreshChannelFullScaleAsWritten | AdcHost.h:67 | as written, a fresh channel at full scale divides by zero |
| AdcHost.ValueX2Between | AdcHost.h:64-73 | with the reference inside the range, every reading lies between the doubled min and max |
| AdcHost.ReadingBetween | AdcHost.h:58-77 | whatever the raw count, `Reading` of a channel whose values rise from min through the reference to max lies between min and max |
| AdcHost.ReportsBeyondHysteresis | AdcHost.h:219 | a change-event channel reports iff the value moved by more than 5; a polling channel never reports |
| GpioHost.UnionHas | GpioHost.h:17-20 | a flag is in the bitwise or of two flag sets iff it is in one of them |
| GpioHost.Edges | GpioHost.h:253-267 | the interrupt edges: none, any edge for both events, or the one edge an event names, swapped when inverted |
| GpioHost.EdgeConfig | GpioHost.h:253-267 | the bit-or method computes `Edges` |
| GpioHost.PortConf | GpioHost.h:99-115 | input iff `IS_INPUT_GF`, with edges only for inputs; pulls as flagged; the given pin |
| GpioHost.Level | GpioHost.h:196-201 | the level is 0 or 1, and is 1 iff the pin reading differs from `INVERTED_GF` |
| GpioHost.GpioPort.constructor | GpioHost.h:38-46 | a port keeps its name, pin, mode and flags, with no change |
| GpioHost.GpioHost.constructor | GpioHost.h:75-79 | a new host has no ports |
| GpioHost.GpioHost.Add | GpioHost.h:87-121 | a fresh port under the name; change events noted; the name registered as an int class; the configuration `PortConf` gives |
| GpioHost.GpioHost.Consume | GpioHost.h:123-150 | the message is never accepted; an output port named by an int payload is driven at that level, inverted when flagged, and nothing else is driven |
| GpioHost.GpioHost.MeasurePort | GpioHost.h:193-212 | the port senses its level and reports whether it is on |
| GpioHost.GpioHost.Measure | GpioHost.h:180-188 | an unknown name gives `INT_MIN`; a known port gives its level, stores it and records whether it changed (+1/-1/0) |
| GpioHost.GpioHost.OnInterrupt | GpioHost.h:233-241 | after an interrupt the port is measured and publishes iff its value changed or it listens on one edge only |
| GpioHost.SenseTwice | GpioHost.h:202-210 | sensing the same level twice reports no change the second time |
| GpioHost.PublishesBothEdges | GpioHost.h:237 | `Publishes`: with both edges, a port publishes only on a change; with one edge, always |
| GpioHost.InvertedReadsLow | GpioHost.h:198-201 | an inverted pulled-up input reads 1 when the pin is low |
| GpioHost.DriveLevelReadsBack | GpioHost.h:136-141 | `DriveLevel` inverts for an inverted port, and a level driven through the flags reads back as that level |
| PcntHost.Step | PcntHost.h:113-138 | one edge moves the count by at most one |
| PcntHost.CyclesCount | PcntHost.h:113-138 | under the channel setup `UnitConfig` writes, `Count` of a forward quadrature cycle is 1, 2 or 4 for single, half-quad and quad encoders, and of a backward cycle the negation |
| PcntHost.CountAppend | PcntHost.h:113-138 | `Count` over two edge sequences is the sum of their counts |
| PcntHost.ForwardThenBack | PcntHost.h:113-138 | a cycle forward then back leaves the count unchanged |
| PcntHost.ReturnToZeroUnpublished | PcntHost.h:225-226 | as written, a count that falls back to 0 is not published, though it changed |
| PcntHost.PublishesAgree | PcntHost.h:225-226 | the source's publish test agrees with `Publishes` (changed) whenever the count is non-zero |
| PcntHost.PcntUnit.constructor | PcntHost.h:27-34 | a unit keeps its name and mode, with no change |
| PcntHost.PcntHost.constructor | PcntHost.h:64-68 | a new host has no units |
| PcntHost.PcntHost.Add | PcntHost.h:79-147 | a fresh unit under the name; change events noted; the name registered as an int class; the channel configuration `UnitConfig` gives |
| PcntHost.PcntHost.MeasureUnit | PcntHost.h:188-202 | the unit senses the count and returns it |
| PcntHost.PcntHost.Measure | PcntHost.h:176-183 | an unknown name gives `INT_MIN`; a known unit gives the count, stores it and records whether it changed (+1/-1/0) |
| PcntHost.PcntHost.SampleUnit | PcntHost.h:220-233 | a change-event unit publishes iff its count changed; the queue gains exactly that payload |
| ServoHost.ServoHost.constructor | ServoHost.h:32-65 | a new host has no servos |
| ServoHost.ServoHost.Add | ServoHost.h:74-116 | the name is registered as an int class, and a servo with range -90..90 is added, set to the centre pulse width |
| ServoHost.ServoHost.Consume | ServoHost.h:127-143 | a payload for a known servo is accepted and sets its pulse width for the clamped angle; anything else changes nothing |
| ServoHost.PulsewidthLandmarks | ServoHost.h:67-72 | `AngleToPulsewidth` gives 500, 1500 and 2500 microseconds at -90, 0 and 90 degrees |
| ServoHost.PulsewidthLinear | ServoHost.h:67-72 | inside the angle range `AngleToPulsewidth` is the truncated linear interpolation, within 500..2500 |
| ServoHost.PulsewidthMonotone | ServoHost.h:67-72 | `AngleToPulsewidth` gives a longer pulse for a larger angle |
| ServoHost.ConsumedInRange | ServoHost.h:136-138 | every consumed angle yields a pulse width within 500..2500 |
| Joystick3AxisHost.Joystick3Axis.constructor | Joystick3AxisHost.h:103-112 | a new joystick is uncentred, unchanged, with a zero sample and hysteresis 5 |
| Joystick3AxisHost.Joystick3AxisHost.constructor | Joystick3AxisHost.h:29-35 | a new host has no joysticks |
| Joystick3AxisHost.Joystick3AxisHost.Add | Joystick3AxisHost.h:46-71 | three polling axis channels spanning 0..4096 to -100..100, a pulled-up button input and a fresh joystick under the name; five names registered in source order; the ADC's change-event flag stays |
| Joystick3AxisHost.Joystick3AxisHost.NewJoystick | Joystick3AxisHost.h:49-68 | builds the joystick over the channels and the button it adds; the ADC's (and GPIO's) change-event flag stays |
| Joystick3AxisHost.Joystick3AxisHost.AddInputs | Joystick3AxisHost.h:56-66 | the three axes and the button are added and registered in order |
| Joystick3AxisHost.Joystick3AxisHost.AddAxes | Joystick3AxisHost.h:56-64 | the three axis channels are added and registered in order |
| Joystick3AxisHost.Joystick3AxisHost.AddPair | Joystick3AxisHost.h:56-61 | two axis channels are added and registered in order |
| Joystick3AxisHost.Joystick3AxisHost.AddAxis | Joystick3AxisHost.h:56-58 | one axis channel with the joystick scaling |
| Joystick3AxisHost.Joystick3AxisHost.AddButton | Joystick3AxisHost.h:66 | a pulled-up polling input under the "-up" name; the GPIO's change-event flag stays |
| Joystick3AxisHost.Joystick3AxisHost.Center | Joystick3AxisHost.h:83-96 | found iff the joystick exists; then the x and y channels take the given values as references at their current counts |
| Joystick3AxisHost.Joystick3AxisHost.SumChannel | Joystick3AxisHost.h:181-186 | the loop's sum is the sum of the scaled readings |
| Joystick3AxisHost.Joystick3AxisHost.ReadAxes | Joystick3AxisHost.h:174-191 | each axis reading is the truncated average of its five scaled readings |
| Joystick3AxisHost.Joystick3AxisHost.CenterOnFirst | Joystick3AxisHost.h:193-200 | the first measurement makes the current counts the zero point of every axis |
| Joystick3AxisHost.Joystick3AxisHost.Compare | Joystick3AxisHost.h:202-220 | moved iff an axis differs from the stored sample by more than the hysteresis, or the button differs; then the sample is replaced, otherwise kept |
| Joystick3AxisHost.Joystick3AxisHost.Measure | Joystick3AxisHost.h:172-221 | the whole measurement: averaged axes, the button level, centring on first use, and the moved decision |
| Joystick3AxisHost.Joystick3AxisHost.SampleJoystick | Joystick3AxisHost.h:156-167 | a change-event joystick publishes iff the averaged axes and the button level moved; then its sample is `Stored` of those and `changed` is 1, otherwise the sample stays and `changed` is 0; the button port senses the level, the axes are centred on the first pass and keep their scaling after it, raw counts are the clamped last samples; the queue gains exactly that payload; any other joystick and its channels are unchanged |
| Joystick3AxisHost.SteadyAverage | Joystick3AxisHost.h:180-191 | `Averaged` of five equal raw counts is their single reading |
| Joystick3AxisHost.SumConstant | Joystick3AxisHost.h:181-186 | the sum of equal readings is their count times the reading |
| Joystick3AxisHost.AverageBetween | Joystick3AxisHost.h:180-191 | `Averaged` lies between the least and greatest reading |
| Joystick3AxisHost.SumBetween | Joystick3AxisHost.h:181-186 | the sum lies between count times the least and count times the greatest reading |
| Joystick3AxisHost.AxisNamesDistinct | Joystick3AxisHost.h:56-62 | the "-x", "-y" and "-z" channel names are pairwise different |
| Joystick3AxisHost.CenteredReadsZero | Joystick3AxisHost.h:193-200 | after centring, the count at which centring happened reads 0 |
| Joystick3AxisHost.StoredNotMoved | Joystick3AxisHost.h:202-214 | measuring the `Stored` sample again is not `Moved` |
| Joystick3AxisHost.StoredKeeps | Joystick3AxisHost.h:207-210 | `Stored` keeps averages that fit `int16_t` and wraps the rest modulo 2^16 |
| JoystickHost.SwitchConf | JoystickHost.h:125-140 | the button is an input without interrupts, pulled up and not down |
| JoystickHost.SwitchIsPulledUpInput | JoystickHost.h:125-140 | that configuration is the one the GPIO host gives a pulled-up input |
| JoystickHost.Joystick.constructor | JoystickHost.h:82-92 | a new joystick is uncentred, unchanged, with a zero sample and hysteresis 5 |
| JoystickHost.JoystickHost.constructor | JoystickHost.h:21-27 | a new host has no joysticks |
| JoystickHost.JoystickHost.Add | JoystickHost.h:29-51 | two axis channels spanning 0..4096 to -100..100, a fresh joystick, the axis names in the new registry and the joystick name in the older one, and the button configuration; the ADC's change-event flag stays |
| JoystickHost.JoystickHost.NewJoystick | JoystickHost.h:32-46 | builds the joystick over the channels it adds and registers its name on the older factory; the ADC's change-event flag stays |
| JoystickHost.JoystickHost.AddPair | JoystickHost.h:39-44 | the two axis channels are added and registered in order |
| JoystickHost.JoystickHost.AddAxis | JoystickHost.h:39-41 | one axis channel with the joystick scaling |
| JoystickHost.JoystickHost.Center | JoystickHost.h:62-75 | found iff the joystick exists; then its channels take the given references |
| JoystickHost.JoystickHost.SumPair | JoystickHost.h:175-179 | the interleaved loop gives the sums of each axis's scaled readings |
| JoystickHost.JoystickHost.ReadAxes | JoystickHost.h:169-183 | each axis is the truncated average of its five readings |
| JoystickHost.JoystickHost.CenterOnFirst | JoystickHost.h:186-191 | the first measurement sets the zero points |
| JoystickHost.JoystickHost.Compare | JoystickHost.h:193-208 | returns 1 and replaces the sample iff an axis moved beyond the hysteresis or the button changed; otherwise returns 0 |
| JoystickHost.JoystickHost.Measure | JoystickHost.h:167-209 | the whole measurement, with the raw pin level as the button value |
| JoystickHost.JoystickHost.SampleJoystick | JoystickHost.h:151-161 | a change-event joystick publishes on the older transport iff the averaged axes and the button moved; then its sample is `Stored` of those, otherwise it stays; the axes are centred on the first pass and keep their scaling after it; any other joystick and its channels are unchanged |
| JoystickHost.SumStep | JoystickHost.h:175-179 | one more reading adds its scaled value to the sum |
| JoystickHost.StoredNotMoved | JoystickHost.h:193-198 | the stored sample does not count as a move |
| JoystickHost.ButtonAloneMoves | JoystickHost.h:194 | any change of the button is a move, however still the axes are |
| ViscaHost.ViscaInterface.constructor | ViscaHost.h:30-46 | an interface keeps its name, link and auto-connect flag, with camera address 1 and broadcast 0 |
| ViscaHost.ViscaHost.constructor | ViscaHost.h:81-89 | a new host has an empty joystick queue, nothing selected and no interfaces |
| ViscaHost.ViscaHost.Add | ViscaHost.h:91-110 | a fresh interface under the name becomes the selected one, and the name is registered as a 3-axis class |
| ViscaHost.ViscaHost.Select | ViscaHost.h:140-149 | found iff the name is known; then it is selected, otherwise the selection stays |
| ViscaHost.ViscaHost.Consume | ViscaHost.h:121-138 | every non-null payload is accepted and its sample offered to the depth-10 queue without waiting |
| ViscaHost.ViscaHost.Drain | ViscaHost.h:185-187 | the queue is emptied and only the newest sample is kept |
| ViscaHost.ViscaHost.Dispatch | ViscaHost.h:190-199 | the commands go to the selected interface, or to every interface when none is selected |
| ViscaHost.ViscaHost.Acton | ViscaHost.h:151-170 | an interface receives the pan/tilt command and then the zoom command for the sample |
| ViscaHost.ViscaHost.Step | ViscaHost.h:179-201 | one task pass: the queue is emptied, and the selected interface (every interface when none is selected) gains exactly the commands of the newest queued sample; the others gain nothing |
| ViscaHost.ScaledZero | ViscaHost.h:223-225 | a scaled speed is 0 iff the product is below 100 in magnitude |
| ViscaHost.ScaledBounds | ViscaHost.h:223-225 | scaling a reading in -100..100 keeps its sign and stays within the maximum speed |
| ViscaHost.PanTiltStillIff | ViscaHost.h:151-157 | `PanTiltOf` is (0, 0) iff abs(x) <= 5 and abs(y) <= 7 |
| ViscaHost.PanTiltInRange | ViscaHost.h:12-13 | for readings in -100..100, `PanTiltOf` gives a pan speed within 18 and a tilt speed within 14, with the reading's sign |
| ViscaHost.ZoomSpeedRange | ViscaHost.h:21 | `ZoomSpeed` of 1..100 lies in 2..7, with 1 giving 2 and 100 giving 7 |
| ViscaHost.ZoomSpeedMonotone | ViscaHost.h:21 | `ZoomSpeed` never gives a slower zoom for a larger reading |
| ViscaHost.ZoomInRange | ViscaHost.h:159-169 | `ZoomOf` stops inside the dead zone, zooms tele for z >= 5 and wide for z <= -5 at speeds in 2..7, and mirrored readings zoom at the same speed |
| ObsWsClientHost.Reassemble | ObsWsClientHost.h:183-201 | a complete text frame yields the message and clears the buffer; a partial chunk at the right offset is appended; a misaligned one resets the buffer |
| ObsWsClientHost.Response | ObsWsClientHost.h:202-232 | a text is published iff it parses and its "op" is 7, and then the whole parsed tree is published |
| ObsWsClientHost.OpOf | ObsWsClientHost.h:203-204 | an op exists iff the "op" item is a number, and an integral "op" is its number |
| ObsWsClientHost.FractionalOpTruncates | ObsWsClientHost.h:204 | the conversion to `int` truncates toward zero: "op": 7.9 is still a request response |
| ObsWsClientHost.NonNumericOpIgnored | ObsWsClientHost.h:203-205 | a message whose "op" is not a number is never published |
| ObsWsClientHost.PrintedResponsePublished | ObsWsClientHost.h:202-229 | any well-formed op-7 message as the server prints it is published as exactly that tree |
| ObsWsClientHost.VersionResponsePublished | ObsWsClientHost.h:202-229 | a response whose request status holds `"result": true` and a numeric code is published whole |
| ObsWsClientHost.WsClientInterface.constructor | ObsWsClientHost.h:57-74 | timeouts of 1000 and 3000 ms, no requests yet, not identified |
| ObsWsClientHost.WsClientInterface.OnData | ObsWsClientHost.h:180-279 | the buffer follows `Reassemble`, and a request response is published as a JSON payload under the interface's name |
| ObsWsClientHost.WsClientInterface.Request | ObsWsClientHost.h:135-154 | the counter goes up first, and the message is op 6 with the request type, "ThisRequest-<n>" and the optional data |
| ObsWsClientHost.WsClientInterface.GetVersion | ObsWsClientHost.h:131-133 | a "GetVersion" request without data |
| ObsWsClientHost.ObsWsClientHost.constructor | ObsWsClientHost.h:302-305 | a new host has no interfaces |
| ObsWsClientHost.ObsWsClientHost.Add | ObsWsClientHost.h:307-316 | a fresh interface under the name, and the name registered as a JSON class |
| ObsWsClientHost.FeedFragments | ObsWsClientHost.h:269-278 | fragments fed at their offsets, ending in a complete frame, deliver the whole text once and leave the buffer empty |
| ObsWsClientHost.ReassembleMessage | ObsWsClientHost.h:183-201 | a text message split into any non-empty fragments arrives as their concatenation |
| ObsWsClientHost.MisalignedChunkResets | ObsWsClientHost.h:270-273 | a partial chunk at the wrong offset empties the buffer and delivers nothing |
| ObsWsClientHost.StaleAssemblyAfterBinary | ObsWsClientHost.h:185-201 | a fragmented binary message is never cleared, so the next text message parses the stale bytes instead of its own |
| ObsWsClientHost.RequestIdsDistinct | ObsWsClientHost.h:145 | requests with different counts have different ids |
| ObsWsClientHost.RequestWf | ObsWsClientHost.h:137-149 | the `RequestMessage` for a request name without NUL and well-formed data is well formed |
| ObsWsClientHost.RequestRoundTrip | ObsWsClientHost.h:151 | a printed `RequestMessage` parses back to the same object |
| ObsWsClientHost.RequestFields | ObsWsClientHost.h:140-146 | in the `RequestMessage`, "op" reads back as 6 and "d.requestId" as the id |

## Left out

- Floating-point payloads (`ObjMsgDataFloat`) are not modelled. The only double read that is modelled is an int's `GetValue(double&)`.
- cJSON is not part of this model. `Json` models the behaviour of its parser and its formatted printer as the core uses them. The model leaves out:
  - binary floating point. A number is the exact decimal mant·10^exp. cJSON holds a double and prints it with `%1.15g`, or `%d` when it is integral. The model prints an integer with `%d` and a fraction with exactly its decimal places, so a parsed number keeps the fraction digits it was written with: `1.0` prints as `1.0` and `2.60` as `2.60`, where cJSON prints `1` and `2.6`. It does not model rounding to double precision, exponent notation in printed text, or NaN and infinity printing as `null`;
  - the nesting limit of 1000 levels and the skipping of a UTF-8 byte-order mark;
  - UTF-8 encoding. Strings are sequences of characters, so a `\uXXXX` escape decodes to one character rather than its UTF-8 bytes, and invalid UTF-8 is not rejected;
  - error positions (`cJSON_GetErrorPtr`).
- `Factory.ObjMsgDataFactory.Deserialize` and `Legacy.ObjMsgDataFactory.Deserialize` compute a number's `valueint` from the exact decimal. cJSON converts through a double, so values with more than about 15 significant digits can differ; 2.9999999999999999 is 3.0 as a double but 2 in the model.
- `ObsWsClientHost.OpOf` truncates any number. The source's double-to-`int` conversion is undefined outside the `int` range.
- `AdcHost.AdcChannel.SetValue` and `AdcHost.Reading` compute exactly. In the source, the doubled values (`2 * min`, `2 * max`, `reference * 2`) and the products `(vMaxX2 - vRefX2) * (raw - rRef)` and `(vRefX2 - vMinX2) * raw` are `int` arithmetic, which overflows (undefined behaviour) for wide ranges (AdcHost.h:25-41, 45-49, 58-77). For example, max = 1000000 at raw count 4095 gives 2·10^6 · 4095 > 2^31. The model agrees with the source only while these stay within `int`. `AdcHost.AdcHost.Add` does not bound min and max.
- The type-name machinery for logging and the static `RegisterClass`/`Deserialize` wrappers are not modelled. The factory is passed to each host explicitly instead of being a process-wide static.
- Memory management is not modelled:
  - `shared_ptr` lifetimes;
  - for a JSON payload, `DeserializeValue` keeps the parsed tree (ObjMsgData.h:552-558). The factory then deletes that tree (ObjMsgDataFactory.cpp:42-44), so the payload holds a freed tree (use after free), and its destructor deletes it again (ObjMsgData.h:527-530; double free). The model keeps the tree as a value;
  - the message leaked when `xQueueSend` fails (ObjMsgTransport.cpp:11-13);
  - the unfreed `cJSON_Print` results.
- FreeRTOS tasks, delays, semaphores and concurrency are not modelled. `ViscaHost.ViscaHost.Step` is one pass of the VISCA task. For the ADC, PCNT and both joystick tasks (AdcHost.h:212-226, PcntHost.h:221-232, Joystick3AxisHost.h:156-167, JoystickHost.h:151-161), `SampleChannel`, `SampleUnit` and `SampleJoystick` are one map entry's turn; the walk over the map is left to the caller, and with it the `unordered_map` order that decides the order of the queue and which payloads a full queue drops. A blocking receive on an empty queue is modelled as a receive that fails.
- Hardware I/O enters as parameters: raw ADC counts, pin levels and pulse counts. The configuration calls are returned as values. The following are not modelled:
  - the ADC unit and attenuation settings;
  - the MCPWM timer, operator and generator setup;
  - the glitch filter;
  - ESP-IDF's own counting and edge logic.
- Fields the source leaves uninitialised start at 0 or false in the model.
- The `int32_t` joystick sums and the pulse-counter limits are unbounded in the model; readings within -100..100 cannot overflow them.
- Pulse-counter rollover at the limits is not modelled, because no limit callback is registered.
- All `Start()` methods are not modelled; they only create tasks and return true.
- `Open`, `Send`, `Identify`, the websocket connect/close events and the VISCA library calls are not modelled. Each VISCA interface records the commands it is sent.
- `cJSON_Parse(assembly.c_str())` stops at an embedded NUL byte; the model parses the whole text. The printer does stop a string at its first NUL, as a C string does. A `\u0000` escape decodes to a NUL character inside the model's string, where cJSON's C string ends there: `{"name":"a\u0000b"}` is looked up under "a" in the source and under the three-character name in the model.
- `cJSON_GetNumberValue` of a missing or non-number "op" gives NaN, and the source casts it to int, which is undefined. The model treats that case as "no op", so nothing is published.
- `JoystickHost.JoystickHost.Measure`: `JoystickHost.h` calls `adc.Read`, which `AdcHost.h` lacks. It also uses the lower-case host API of `ObjMsg.h`. The model reads each axis the way `AdcHost.Measure` does, and uses the older factory and transport for the parts that need them.
- `JoystickHost.JoystickHost.Add`: joysticks are stored by value in the source and re-adding a name overwrites that slot. The model installs a fresh object under the name.
- `Joystick3AxisHost.Joystick3AxisHost.ReadAxes`: the source interleaves the three axis reads, and the model sums each axis in its own loop. The channels are distinct objects, so the results are the same; only the hardware read order differs.
- `ViscaHost.ViscaHost.Consume` requires a 3-axis payload when the payload is not null. The source `static_cast`s any payload to a 3-axis one, which is undefined for other classes.
- `ServoHost.ServoHost.Consume` requires an int payload for a known servo name, for the same `static_cast` reason.
- `ObsWsClientHost.WsClientInterface.Request` requires `requestCount < INT_MAX`, because the source's `++requestCount` would overflow a signed int.
- `ServoHost.AngleToPulsewidth` wraps to `uint32_t`. Its properties are proved only for angles inside -90..90, which is all that `Consume` passes.
- The UI-binding tool, the LVGL host, the generic websocket host, the AV-device client and the example applications are not modelled; they are not core.
- Logging is not modelled.

## Findings

| source | as written | input that shows it | evidently intended | confidence | as-written member | corrected member |
|---|---|---|---|---|---|---|
| ObjMsgData.h:460 | a string payload copies `valuestring`, which is NULL for a non-string value, into `std::string` | `{"name":"s","value":1}` into a string payload | reject a non-string value | not executed | Payload.PopulateAsWritten | Payload.Populate |
| Joystick3AxisData.h:70-73 | each joystick field dereferences `cJSON_GetObjectItem` without a NULL check (also ObjMsgJoystickData.h:69-71) | a joystick record whose value is `{}` | reject a record without all fields | not executed | Payload.PopulateJoystickFromEmpty | Joystick3AxisData.Read |
| ObjMsgData.h:568 | a JSON payload holding NULL appends `cJSON_Print(NULL)`, which is NULL, to a `std::string` | serializing the payload `Create(origin, name)` makes for a JSON class | serialize the value as `null` | not executed | Payload.SerializeNullJson | Payload.Serialize |
| ObjMsgDataFactory.cpp:39 | a non-string name passes `cJSON_GetStringValue`'s NULL into a `char const*` that becomes a `std::string` | `{"name":1,"value":2}` | treat the record as unnamed | not executed | Factory.NameNotString | Factory.DeserializeSpec |
| ObjMsgDataFactory.cpp:57-58 | an unregistered record without "value" builds a string from `cJSON_Print(NULL)` | `{"name":"u"}` with "u" unregistered | deliver nothing | not executed | Factory.UnregisteredWithoutValue | Factory.DeserializeSpec |
| ObjMsgData.h:86 | `IsFrom` takes an `int16_t`, so an origin at or above 0x8000 never matches | a payload with origin 0x8000 | compare the `uint16_t` origin | not executed | Payload.IsFromHighOrigin | Payload.IsFromOwnOrigin |
| AdcHost.h:67 | a fresh channel has `rRef == rMax`, so a full-scale reading divides by zero | a fresh channel read at raw == maxCount | read max at full scale | not executed | AdcHost.FreshChannelFullScaleAsWritten | AdcHost.FreshChannelEnds |
| PcntHost.h:225-226 | the task tests `Measure`'s returned count as a boolean, so a change to 0 is never published | a count going from 1 to 0 | publish every change | not executed | PcntHost.ReturnToZeroUnpublished | PcntHost.PcntHost.SampleUnit |
