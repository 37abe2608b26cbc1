# Telemetry relay: a Dafny model

This project models the core of a small IoT telemetry relay. The relay has three parts:

- **Connection-string conversion** (`scripts/iot.js`, and a second version in `generator.py`, which is JavaScript despite its name). It takes an IoT Hub connection string, signs a shared access signature (SAS) token and opens an AMQP discovery link. The broker refuses the link with an `amqp:link:redirect` error. The converter reads that error and builds the Event Hubs-compatible connection string. Failures are thrown or rejected with the messages the source uses.
- **The server's fan-out** (`server.js`). `wss.broadcast` sends a string to every open WebSocket client, with one try/catch per client. The event callback wraps each event in an envelope `{IotMessage, Timestamp, DeviceID}`, serialises it and broadcasts it.
- **The dashboard's handler** (`public/js/data.js`). Each `DeviceData` keeps a 50-slot rolling series per device. `TrackedDevices` is the registry. The WebSocket `onmessage` handler drops incomplete messages, finds or creates the device, appends the sample and auto-selects the first device once.

State the source changes in place is modelled with classes:

- `DeviceData`'s three arrays.
- The `TrackedDevices` registry.
- The page's `needsAutoSelect` flag and chart subject.
- Each socket's sent frames.

Each method on these classes is proved against a value-level specification: `Append`, `Step`, `Log`. The properties are proved about those specifications as lemmas. The conversion logic is pure code, so it is modelled as functions.

Library calls the model cannot compute are passed in as parameters:

- `encodeURIComponent` and base64 HMAC-SHA256, bundled in `SasToken.Primitives`.
- `JSON.stringify`, as the `stringify` argument.
- The clock, as an integer count of milliseconds (`nowMs`).
- The current time used by the corrected envelope.

The AMQP session is replaced by its outcome, which is the link error the broker answers with.

Modules, one file each:

| module | file |
|---|---|
| `Wrappers` (Option, Result) | `wrappers.dfy` |
| `Text` (`split`, decimals, labelled fields) | `text.dfy` |
| `SasToken` | `sas_token.dfy` |
| `AmqpRedirect` (link error, address pattern) | `amqp_redirect.dfy` |
| `RedirectExamples` | `redirect_examples.dfy` |
| `IotHub` (shared parts of both converters) | `iot_hub.dfy` |
| `IotHubConversion` | `iot_conversion.dfy` |
| `GeneratorConversion` | `generator_conversion.dfy` |
| `DeviceSeries` | `device_series.dfy` |
| `Dashboard` | `dashboard.dfy` |
| `Relay` | `broadcast.dfy` |

The address pattern `/5671\/(.*)\/\$management/i` is modelled as the JavaScript engine runs it:

- The leftmost match wins.
- `.*` is greedy and does not cross the line terminators `\n`, `\r`, U+2028 and U+2029.
- The `i` flag is needed only for the pattern's own characters, which are ASCII. A non-ASCII character never matches an ASCII one, so folding ASCII letters decides every comparison the pattern makes.

The pattern uses `(.*)`, so an empty entity path is a match. scripts/iot.js:86 accepts it, and generator.py:82 rejects it. That is exactly where the two converters differ (`GeneratorConversion.ConvertersCompared`). public/js/data.js:148 drops a message when the date is missing *or* both readings are falsy.

## Model

| member | source | states |
|---|---|---|
| Text.Split | scripts/iot.js:46 | `split` on one character: at least one piece, no piece holds the separator, and joining the pieces gives the input back |
| Text.SplitJoin | generator.py:43 | splitting a join of separator-free parts gives the parts back |
| Text.NatToString | scripts/iot.js:17 | the decimal text of a number is all digits with no leading zero |
| Text.ParseNatToString | scripts/iot.js:17 | reading the decimal text back gives the number |
| Text.NatToStringInjective | scripts/iot.js:17 | different numbers have different decimal texts |
| Text.LabelledRoundTrip | scripts/iot.js:25 | fields written as `label=value` joined by a separator read back as the same values when no value contains the separator |
| SasToken.TokenText | scripts/iot.js:25 | the definition: `SharedAccessSignature ` and the four `label=value` fields joined by '&'; its round trip is `SasToken.ParseTokenText` |
| SasToken.Sign | scripts/iot.js:13-22 | the token carries the URI-encoded resource, the URI-encoded base64 HMAC of `resource \n expiry`, the expiry and the policy |
| SasToken.ParseTokenText | scripts/iot.js:25 | `SharedAccessSignature sr=..&sig=..&se=..&skn=..` reads back as the token it was written from |
| SasToken.SignedTokenVerifies | scripts/iot.js:13-25 | a signed token's text verifies under the signing key, and a reader recovers the encoded resource, expiry and policy |
| SasToken.TokenTextFixesExpiry | generator.py:17-24 | two tokens with the same text have the same fields, expiry included |
| AmqpRedirect.MatchSpanIff | scripts/iot.js:82 | once `5671/` starts at p, a trail at q closes a match exactly when q is no further than the end of that line |
| AmqpRedirect.LineEnd | scripts/iot.js:82 | the first line terminator at or after i, with none in between |
| AmqpRedirect.LastTrail | scripts/iot.js:82 | the last position in a range where `/$management` (any letter case) starts |
| AmqpRedirect.MatchFrom | scripts/iot.js:82 | the leftmost-greedy match starting at p or later, or None when no match starts there |
| AmqpRedirect.EntityPathCapture | scripts/iot.js:82 | `match(...)[1]`: None exactly when there is no match, otherwise the text `(.*)` captures in the leftmost, greedy match |
| AmqpRedirect.LeftmostGreedyUnique | generator.py:78 | there is only one leftmost-greedy match |
| AmqpRedirect.CaptureOfMatch | generator.py:78 | the leftmost-greedy match determines the capture |
| RedirectExamples.TrailAtExact | scripts/iot.js:82 | a lower-case `/$management` at the end is recognised as the trail |
| RedirectExamples.RedirectAddressCapture | scripts/iot.js:82 | for `amqps://<host>:5671/<entity>/$management`, with no '/' in the host (true of every host name) and no line break in the entity, the capture is the entity |
| RedirectExamples.NoLeadBefore | scripts/iot.js:82 | no `5671/` starts before the port of `amqps://<host>:` when the host holds no '/' |
| RedirectExamples.DigitHostCapture | scripts/iot.js:82 | `amqps://ns55.net:5671/hub-5671/$management` captures `hub-5671`: digits in the host or the entity do not move the match |
| RedirectExamples.NamedCapture | scripts/iot.js:91 | `amqps://h:5671/my-entity/$management` captures `my-entity` |
| RedirectExamples.UnnamedCapture | scripts/iot.js:86 | `amqps://h:5671//$management` captures the empty string, which counts as a match |
| IotHub.HubName | scripts/iot.js:46 | the hub name is the host name up to its first '.': it contains no '.', it is a prefix, and it is empty exactly when the host is empty or starts with '.' |
| IotHub.ParseEndpointText | scripts/iot.js:92 | `Endpoint=sb://<host>/;EntityPath=..;SharedAccessKeyName=..;SharedAccessKey=..` reads back as the endpoint it was written from |
| IotHub.ProbeFor | scripts/iot.js:59-74 | the definition: the discovery connection's options and the receiver's source address; every field is stated by `IotHubConversion.ProbeCredentials` and `GeneratorConversion.ProbeCredentials` |
| IotHub.EndpointText | scripts/iot.js:92 | the definition: `Endpoint=sb://<host>/;EntityPath=..;SharedAccessKeyName=..;SharedAccessKey=..`; its round trip is `IotHub.ParseEndpointText` |
| IotHubConversion.GenerateSasToken | scripts/iot.js:13-26 | the definition: the token text signed with the ceiling expiry; its properties are `IotHubConversion.GenerateSasTokenSpec` |
| IotHubConversion.CeilExpiry | scripts/iot.js:16 | the expiry is the first whole second at or after now plus the validity period |
| IotHubConversion.GenerateSasTokenSpec | scripts/iot.js:13-26 | the generated token verifies under the key, and reads back with the encoded resource, the policy and the ceiling expiry |
| IotHubConversion.PrepareProbe | scripts/iot.js:36-67 | a missing or empty field throws "Invalid IoT Hub connection string.", an empty hub name throws the hub-name message, and otherwise a probe is built |
| IotHubConversion.ProbeCredentials | scripts/iot.js:53-74 | the probe opens TLS to the hub host (`host` and `hostname`), its receiver asks for `amqps://<host>/messages/events/$management`, and it logs in as `<policy>@sas.root.<hub>` on port 5671 of the hub host, without reconnecting, using a token for `<host>/messages/events` that verifies and lasts at least 5 minutes |
| IotHubConversion.OnReceiverError | scripts/iot.js:78-96 | a non-redirect error or a missing hostname is rejected with the error itself, and an address with no match is rejected as unparsable. Otherwise the endpoint has the redirect host, the captured path and the input key name and key |
| IotHubConversion.Convert | scripts/iot.js:35-102 | a failed field check is the conversion's result |
| IotHubConversion.ConvertFailsBeforeConnecting | scripts/iot.js:41-50 | a failed field check throws the same error whatever the clock and the broker's answer |
| IotHubConversion.ConvertResult | scripts/iot.js:91-92 | a successful result reads back as the redirect host, the captured entity path and the input key name and key |
| GeneratorConversion.FloorExpiry | generator.py:17 | the expiry is the current whole second, rounded down, plus exactly the validity period |
| GeneratorConversion.CreateSasToken | generator.py:14-25 | the definition: the token text signed with the floor expiry; its properties are `GeneratorConversion.CreateSasTokenSpec` |
| GeneratorConversion.CreateSasTokenSpec | generator.py:14-25 | the token verifies under the key, and reads back with the encoded resource, the policy and the floor expiry |
| GeneratorConversion.PrepareProbe | generator.py:35-64 | the same checks as scripts/iot.js, with this file's messages |
| GeneratorConversion.ProbeCredentials | generator.py:49-70 | the probe opens TLS to the hub host (`host` and `hostname`), its receiver asks for `amqps://<host>/messages/events/$management`, and it logs in as `<policy>@sas.root.<hub>` on port 5671 of the hub host, without reconnecting, using a token for `<host>/messages/events` that verifies under the key, names the policy and expires at the floored clock second plus 300, up to a second short of 5 minutes |
| GeneratorConversion.OnReceiverError | generator.py:74-91 | as in scripts/iot.js, except that a missing or empty capture throws "Failed to parse Event Hub name from address: <address>", so a successful entity path is never empty |
| GeneratorConversion.Convert | generator.py:34-95 | a failed field check is the conversion's result |
| GeneratorConversion.ExpiriesCompared | generator.py:17 | the two expiries agree on a whole-second clock reading; otherwise scripts/iot.js's is one second later |
| GeneratorConversion.SameFieldChecks | generator.py:39-47 | both converters accept exactly the same connection fields |
| GeneratorConversion.ConvertersCompared | generator.py:82 | whenever generator.py resolves, scripts/iot.js resolves to the same string; they differ only on a redirect whose capture is empty |
| DeviceSeries.OrNull | public/js/data.js:23 | `humidity \|\| null`: a truthy reading is kept, and anything falsy (0 included) becomes null |
| DeviceSeries.Initial | public/js/data.js:15-17 | `new Array(50)`: three arrays of exactly 50 empty slots |
| DeviceSeries.Append | public/js/data.js:20-31 | the definition of `addData`: push the three values, then shift each array once it is over 50 long; its properties are `AppendToFull`, `AppendAllIsSuffix` and `WindowAfterSamples` |
| DeviceSeries.AppendToFull | public/js/data.js:20-31 | on full arrays, `addData` drops the oldest entry of each array and appends the new values, so all three stay 50 long |
| DeviceSeries.AppendAllIsSuffix | public/js/data.js:20-31 | after any number of samples, each array is the last 50 entries of its old contents followed by the appended values |
| DeviceSeries.LastOfSnoc | public/js/data.js:26-30 | one more entry slides the last-50 view by one |
| DeviceSeries.LastAfterHoles | public/js/data.js:15-31 | slot i of the last 50 of 50 holes followed by the values is a hole or the matching value |
| DeviceSeries.WindowAfterSamples | public/js/data.js:11-31 | after k samples from a new device, the last min(k, 50) slots hold the samples in order, the same index in all three arrays, and the earlier slots are still empty |
| DeviceSeries.SlotsOfLast | public/js/data.js:11-31 | the slot-by-slot reading of the window |
| DeviceSeries.DeviceData.constructor | public/js/data.js:12-18 | a new device has its id and the initial 50-hole arrays |
| DeviceSeries.DeviceData.AddData | public/js/data.js:20-31 | the arrays become `Append(old, sample)` and stay 50 long |
| Dashboard.Classify | public/js/data.js:148-150 | a message is recorded exactly when it has a non-empty date, an `IotData` and a truthy temperature or humidity |
| Dashboard.FirstIndex | public/js/data.js:41-43 | `find`: None exactly when the id is absent, otherwise its first occurrence |
| Dashboard.Step | public/js/data.js:142-180 | the definition of the handler's effect: a recorded sample goes to the first device with the id, or to a new device pushed at the end, with one-shot auto-selection; its properties are the `Step*` lemmas, `SelectionIsStable` and `RunInvariant` |
| Dashboard.StepIgnores | public/js/data.js:148-150 | an incomplete message, or one without `IotData`, changes nothing |
| Dashboard.StepKnown | public/js/data.js:153-156 | a known device gets the sample appended to its series, and nothing else changes |
| Dashboard.StepNew | public/js/data.js:157-173 | an unknown device is appended with a fresh series holding the sample, and auto-selection fires if it was pending |
| Dashboard.StepIds | public/js/data.js:153-160 | the registry only grows, at its end, by the id of an accepted message from a new device |
| Dashboard.StepSeries | public/js/data.js:153-161 | an accepted message appends exactly one sample to its device's series (a fresh series for a new device), and every other device's series is unchanged |
| Dashboard.FirstIndexSnoc | public/js/data.js:41-43 | `find` on a registry with one more device at its end |
| Dashboard.FirstIndexIs | public/js/data.js:41-43 | `find` stops at the first occurrence |
| Dashboard.InitialInvariant | public/js/data.js:125 | the page starts with no device, auto-selection pending and nothing shown |
| Dashboard.StepInvariant | public/js/data.js:142-180 | each message keeps ids distinct and every series exactly 50 long. Auto-selection is pending exactly while no device is known, and the chart shows the first device |
| Dashboard.SelectionIsStable | public/js/data.js:168-172 | once a device is shown, no later message changes the selection or re-arms auto-selection |
| Dashboard.FirstDeviceIsSelected | public/js/data.js:125-180 | from a new page, after any messages, the chart shows the first device ever registered, or nothing |
| Dashboard.RunInvariant | public/js/data.js:142-180 | the invariant holds after any sequence of messages |
| Dashboard.DistinctCount | public/js/data.js:45-47 | with distinct ids, the registry length is the number of distinct devices |
| Dashboard.RecordsOfSnoc | public/js/data.js:159 | pushing a device adds its record at the end |
| Dashboard.IdsOfRecords | public/js/data.js:41-43 | the registry's ids are those of its records |
| Dashboard.TrackedDevices.constructor | public/js/data.js:36-38 | the registry starts empty |
| Dashboard.TrackedDevices.FindDevice | public/js/data.js:41-43 | nothing exactly when no device has the id, otherwise the device at its first occurrence |
| Dashboard.TrackedDevices.Push | public/js/data.js:159 | a device with a new id is appended, and ids stay distinct |
| Dashboard.TrackedDevices.GetDevicesCount | public/js/data.js:45-47 | the count is the number of distinct device ids |
| Dashboard.NewDevice | public/js/data.js:158-161 | a new device holding its first sample |
| Dashboard.Page.constructor | public/js/data.js:125 | the page's state is the initial session |
| Dashboard.Page.OnMessage | public/js/data.js:142-180 | the page's new state is `Step(old state, message)`, and the registry stays valid |
| Dashboard.Page.Accept | public/js/data.js:153-173 | for a recorded message, the new state is `Step(old state, message)` |
| Dashboard.Page.AddToKnown | public/js/data.js:155-156 | the found device's `addData`, as in `Step` |
| Dashboard.Page.Register | public/js/data.js:157-173 | the new device is registered and auto-selected if that is pending, as in `Step` |
| Dashboard.Page.Push | public/js/data.js:158-161 | the registry's records gain the new device's record at the end |
| Relay.Socket.Send | server.js:38 | a send throws on a failing socket and otherwise queues the frame |
| Relay.LinesFor | server.js:35-41 | the definition of one client's console lines: none unless it is open, then the send line and, if the send threw, the error line |
| Relay.Log | server.js:34-43 | the definition: the clients' lines in iteration order; its properties are `LogConcat`, `LogAround`, `LogMentions` and `AttemptsAreOpenClients` |
| Relay.Delivered | server.js:35-38 | a client receives the data exactly when it is open and its send does not throw |
| Relay.Broadcast | server.js:33-44 | the console lines are `Log(clients, data)`, each client's frames gain exactly `Delivered`, and socket states are untouched |
| Relay.Serve | server.js:35-41 | one iteration: the `readyState` test and the guarded send |
| Relay.LogConcat | server.js:34-43 | clients do not interfere: the lines for a list of clients are the lines for any split of it, in order |
| Relay.LogAround | server.js:35-41 | a closed client adds nothing, and a failing client adds its error line and leaves the later clients served as usual |
| Relay.LogMentions | server.js:34-43 | some client is attempted exactly when some client is open, always with the same data; an error line appears exactly when some open client's send throws; `broadcast` itself raises nothing |
| Relay.AttemptsConcat | server.js:34-43 | the send lines of two stretches of console output add up |
| Relay.AttemptsAreOpenClients | server.js:34-38 | a broadcast makes as many send attempts as there are open clients: each open client is attempted once, no other client is |
| Relay.EnvelopeAsWritten | server.js:55-59 | the envelope fails exactly when the timestamp is falsy (`None`), and otherwise carries the message, timestamp and device id |
| Relay.EnvelopeWithFallback | server.js:57 | the envelope always carries the message and device id, and the timestamp or else the current time |
| Relay.EventLog | server.js:53-65 | the definition of the callback's lines as written: the error line when the envelope throws, otherwise the broadcast's lines; its properties are `UntimedEventDropped` and `FallbackAgrees` |
| Relay.OnEvent | server.js:53-65 | the callback's lines are `EventLog`, and the clients receive the serialised envelope only when it could be built |
| Relay.OnEventCorrected | server.js:53-65 | with the corrected fallback, every event is broadcast to every open client |
| Relay.UntimedEventDropped | server.js:57 | as written, an event without a timestamp logs one error and reaches no client |
| Relay.FallbackAgrees | server.js:57 | the corrected callback agrees with the code whenever a timestamp is present, and attempts some client exactly when some client is open |

## Left out

- Network and AMQP: opening the connection, creating the receiver, closing it, and the event-hub reader (`scripts/reader.js` is not part of this model). The broker's answer is an input.
- `encodeURIComponent`, base64 decoding of the key and HMAC-SHA256 are parameters. The round-trip lemmas assume that URI encoding never yields '&', which holds of the real function.
- SasToken.Sign: the signing key's base64 decoding and the UTF-8 encoding of the signed text are inside the HMAC parameter.
- IotHubConversion.CeilExpiry: computed in integer milliseconds. The source divides in floating point. For current clock values the rounded quotient lies on the same side of each whole second as the exact one, so `Math.ceil` and `Math.floor` give the integer results. No rounding error is modelled.
- IotHubConversion.OnReceiverError: the unparsable-address rejection keeps only the address. The message's tail (`error.stack` and the JSON of `info`) is not modelled.
- IotHubConversion.OnReceiverError: a redirect error without `info` is excluded by a precondition. The source reads `error.info.address` before checking anything, so the handler throws inside the event listener and the promise never settles. GeneratorConversion.OnReceiverError has the same precondition for the same reason.
- AmqpRedirect.EntityPathCapture: a missing `info.address` is not modelled. The address is always a string.
- The parse of the connection string (`parseConnectionString`) is taken as given. Its three fields are inputs.
- Dashboard: the DOM, Chart.js and the device-count text are not modelled. `JSON.parse` is not modelled either: a message arrives already parsed. The user's own selection changes are left out. The chart subject is kept as the id of the device shown.
- Dashboard.Classify: readings are numbers or absent. Non-number values, such as strings and NaN, are not modelled.
- Dashboard.Page.Push: the device is created and given its sample before it is pushed. The source pushes first. The resulting state is the same.
- Relay: the client set is a snapshot with distinct sockets. Connections opening or closing during a broadcast are left out, since JavaScript runs the `forEach` to completion. Whether a send throws is an input of each socket.
- Relay.EnvelopeAsWritten: the timestamp is present or absent. `None` stands for every falsy timestamp (undefined, null, 0, "", NaN), all of which reach the throwing fallback; a present timestamp is taken to be truthy.
- Relay.OnEvent: `JSON.stringify` is a total parameter. A serialisation that throws, for example on a cyclic message, is not modelled. The error line does not record the message it quotes.
- The server's setup is left out: express, `listen`, the environment checks and the `ws` server itself.

## Findings

| source | as written | input that shows it | evidently intended | confidence | as-written member | corrected member |
|---|---|---|---|---|---|---|
| server.js:57 | `timestamp \|\| Date.now().toISOString()` calls `toISOString` on the number `Date.now()` returns. The call throws a TypeError, which the callback's catch logs | any event whose timestamp is falsy (undefined, null, 0 or ""): it is logged as an error and never broadcast | fall back to the current time as an ISO string (`new Date().toISOString()`), so every event is broadcast | high; not executed | Relay.UntimedEventDropped | Relay.FallbackAgrees |
