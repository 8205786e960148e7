# QR check-in station: a Dafny model

This project models the logic of the `QRScannerApp` React component
(`qr-scanner-app/src/QRScannerApp.jsx`). A staffed station decodes an
attendee's QR code and parses the text into a scan record. It posts the record
to a webhook when online, or queues it in `localStorage` when offline. When
connectivity returns it replays the queue. The component also drives a small
idle / scanning / result cycle with three counters (`total`, `successful`,
`failed`).

Modules, leaf first:

- `Wrappers`: `Option`, standing for JavaScript's `undefined`.
- `JsString`: `String.prototype.split` for a one-character separator, with its
  inverse `Join`. The lemmas prove that joining a split gives back the text, and
  that a split is the only cut into separator-free pieces that join back to it.
- `Payload`: the parser, a left fold (`reduce`) over the `|`-segments, each cut
  on `:`, plus the scan record built from the `EVENT`, `INVITADO`, `LEAD` and
  `HASH` entries.
- `Webhook`: what `sendToWebhook` does with the reply it gets. The reply is an
  input `Reply`: transport failure, or a status with a body that is unparsable,
  JSON `null`, or a JSON object. Also the outcome shown in the result view.
- `Replay`: functions of (queue, replies) giving what one sync pass leaves:
  - the kept entries;
  - the number of deliveries;
  - the outcome left on screen.
- `ScannerApp`: the class `QRScannerApp`. Its fields are the component's state:
  - `scanning`, `lastScan`, the three counters, `isOnline`, `pendingScans`;
  - `storage`, the persisted queue;
  - `pendingTimers`, the scheduled 3000 ms timers.

  Its methods are the handlers: mount, start, stop, timer, send, process,
  handleScan, sync, and the online/offline event. `Valid()` says two things.
  The persisted queue equals the in-memory queue. And `total == successful +
  failed`. Every handler preserves it.
- `Scenarios`: runs from mount, proved from the handlers' contracts only:
  - offline scans, then a restart;
  - a sync where one resend fails;
  - the scan cycle;
  - ignored decodes;
  - a sync that leaves the result on screen;
  - a sync whose result an earlier decode's timer clears.

Inputs standing for the environment: each POST's `Reply`; the clock readings
`now` (`Date.now()`) and `scannedAt` (the ISO text of `new Date()`); the
platform connectivity events (`SetOnline`); the timer firing (`TimerFired`);
the decoder's batches (`HandleScan`, a sequence of optional `rawValue`s).

Behaviour of the code that the model keeps, where it may surprise a reader:

- `"".split('|')` is `[""]`, so an empty text parses to the one-entry
  object `{"": undefined}` (`Payload.ParseEmpty`). `processQRCode` never sees an
  empty text anyway, because it and `handleScan` both skip falsy values.
- A segment keyed `__proto__` is not stored. Assigning a string or `undefined`
  to `__proto__` on a plain object goes to the inherited setter, which ignores
  it (`Payload.FoldPairsNoProto`).
- A JSON `null` body fails even with an ok status: reading `result.message`
  throws a TypeError.
- A successful resend during sync goes through `sendToWebhook`. So it sets
  `lastScan` and raises `total` and `successful` again, on top of the count it
  got when it was queued. It schedules no timer. After a sync that delivered
  something, the result view therefore stays up, unless a timer from an earlier
  decode is still pending (`Scenarios.ResultAfterSync`,
  `Scenarios.SyncBeforeTimer`).
- The sync effect also runs on mount. But it reads the initial empty
  `pendingScans`, so a queue restored from storage is not synced until the next
  offline-to-online change (`ScannerApp.QRScannerApp.Mount`).

## Model

| member | source | states |
|---|---|---|
| `JsString.Split` | qr-scanner-app/src/QRScannerApp.jsx:54-55 | `split` on one character always gives at least one piece, and no piece contains the separator |
| `JsString.JoinSplit` | qr-scanner-app/src/QRScannerApp.jsx:54-55 | joining the pieces with the separator gives back the original text, so splitting loses nothing |
| `JsString.JoinHasSeparator` | qr-scanner-app/src/QRScannerApp.jsx:54-55 | the joined text contains the separator exactly when there are at least two pieces |
| `JsString.SplitUnique` | qr-scanner-app/src/QRScannerApp.jsx:54-55 | any at-least-one sequence of separator-free pieces that joins to `s` is exactly `Split(s)`; this characterises split independently of its recursion |
| `Payload.SplitSegmentSpec` | qr-scanner-app/src/QRScannerApp.jsx:55 | of `SplitSegment`, the destructuring `[key, value] = part.split(':')`: the key is the text before the first `:` (the whole segment when there is none); the value is the text between the first and second `:`; it is undefined exactly when the segment has no `:` |
| `Payload.FoldPairsHasKey` | qr-scanner-app/src/QRScannerApp.jsx:54-58 | of `FoldPairs`, the `reduce` that `Parse` applies to the segments: a key other than `__proto__` is in the folded mapping exactly when some segment carries it |
| `Payload.FoldPairsLookup` | qr-scanner-app/src/QRScannerApp.jsx:54-58 | of `FoldPairs`, the `reduce` at these lines: the value of a key is that of the last segment carrying it, so later duplicates overwrite earlier ones |
| `Payload.FoldPairsNoProto` | qr-scanner-app/src/QRScannerApp.jsx:56 | of `FoldPairs`: the key `__proto__` never becomes an entry of the parsed object |
| `Payload.BuildRecord` | qr-scanner-app/src/QRScannerApp.jsx:60-67 | the record keeps the raw decoded text unmodified as `qrData`, together with the given `scannedAt`; it is defined for every input, so parsing never fails |
| `Payload.RecordFieldFromSegments` | qr-scanner-app/src/QRScannerApp.jsx:54-67 | each of `eventId`, `invitadoId`, `leadId`, `hash` is the value of the last segment keyed `EVENT`, `INVITADO`, `LEAD`, `HASH` respectively, and is absent when no segment has that key |
| `Payload.ParseEmpty` | qr-scanner-app/src/QRScannerApp.jsx:54-58 | of `Parse`, the whole `split`-then-`reduce` expression: the empty text parses to the single entry `"" ↦ undefined` |
| `Payload.SplitSegmentPair` | qr-scanner-app/src/QRScannerApp.jsx:55 | a segment `name:v` with no other `:` binds `name` to `v` |
| `Payload.WellFormedPairs` | qr-scanner-app/src/QRScannerApp.jsx:54-55 | the segments `EVENT:e`, `INVITADO:g`, `HASH:h` joined by the pipe, with delimiter-free values, are cut into exactly the three pairs `EVENT`, `INVITADO`, `HASH` bound to `e`, `g`, `h`, in that order |
| `Payload.ParseWellFormed` | qr-scanner-app/src/QRScannerApp.jsx:54-67 | the three segments `EVENT:e`, `INVITADO:g`, `HASH:h` joined by the pipe, with delimiter-free values, yields the record with those three identifiers, no lead, and the raw text |
| `Payload.SplitSegmentExtraColon` | qr-scanner-app/src/QRScannerApp.jsx:55 | a segment `name:a:b` binds `name` to `a`: only the text before the second `:` is kept |
| `Webhook.MemberOr` | qr-scanner-app/src/QRScannerApp.jsx:126 | reading `result.name` with a fallback (the `or` operator) yields either the fallback or a non-empty member; a non-empty member wins; with a non-empty fallback the result is never empty |
| `Webhook.Submit` | qr-scanner-app/src/QRScannerApp.jsx:112-138 | a submission is accepted iff the transport completed, the status is ok, and the body is a JSON object. The accepted message is the server's `message` or the default, never empty, and the server data is kept. A rejected status fails with the server's `error` or the default text. Transport and parse failures keep the platform's error text. A `null` body fails with the engine's TypeError |
| `Replay.FailedPositions` | qr-scanner-app/src/QRScannerApp.jsx:145-151 | the failed positions are strictly increasing, each is a position whose resend failed, and every failed position is listed |
| `Replay.RemainingAreFailures` | qr-scanner-app/src/QRScannerApp.jsx:144-151 | of `Remaining`, the `remaining` array the loop builds: the kept entries are exactly the queue entries at the failed positions, in their original relative order |
| `Replay.RemainingPlusDelivered` | qr-scanner-app/src/QRScannerApp.jsx:144-151 | of `Remaining` and `DeliveredCount`, the loop's kept entries and its successful resends: kept entries plus deliveries account for the whole queue, so a pass never makes the queue longer |
| `Replay.NothingDelivered` | qr-scanner-app/src/QRScannerApp.jsx:141-155 | of `Remaining`, `DeliveredCount` and `LastShown`: when every resend fails, the whole queue is kept in order, no delivery is counted, and the shown outcome is unchanged |
| `Replay.ShownIsLastDelivery` | qr-scanner-app/src/QRScannerApp.jsx:124-151 | of `LastShown`, the `lastScan` left by the loop's `setLastScan` calls: after a pass with some delivery, `lastScan` is the success outcome of the last delivered entry |
| `Replay.PartialFailure` | qr-scanner-app/src/QRScannerApp.jsx:144-151 | of `Remaining` and `DeliveredCount`: for queue `[A, B, C]` where only B fails, the kept queue is exactly `[B]` and two deliveries are counted |
| `ScannerApp.QRScannerApp.CurrentView` | qr-scanner-app/src/QRScannerApp.jsx:248-303 | idle is `!scanning && !lastScan`, scanning is `scanning && !lastScan`, result is `lastScan != null`; exactly one holds |
| `ScannerApp.QRScannerApp.Mount` | qr-scanner-app/src/QRScannerApp.jsx:15-41 | mounting starts idle with zero counters and no timers, adopts the platform's connectivity, and loads the persisted queue (absent reads as empty) without syncing it |
| `ScannerApp.QRScannerApp.Start` | qr-scanner-app/src/QRScannerApp.jsx:260-263 | start moves idle to scanning and is not available from any other view |
| `ScannerApp.QRScannerApp.Stop` | qr-scanner-app/src/QRScannerApp.jsx:292-295 | stop moves scanning to idle and does nothing from the result view |
| `ScannerApp.QRScannerApp.TimerFired` | qr-scanner-app/src/QRScannerApp.jsx:106-109 | a pending timer clears the outcome and resumes scanning; with none pending nothing happens |
| `ScannerApp.QRScannerApp.SendToWebhook` | qr-scanner-app/src/QRScannerApp.jsx:112-139 | an accepted post shows the success and adds one to `total` and to `successful`; a refused post returns the error text and changes nothing |
| `ScannerApp.QRScannerApp.PostRecord` | qr-scanner-app/src/QRScannerApp.jsx:69-101 | the online branch counts exactly one decode: an accepted post as a success showing the server outcome, a refused one as a failure showing the prefixed error text |
| `ScannerApp.QRScannerApp.QueueRecord` | qr-scanner-app/src/QRScannerApp.jsx:71-88 | the offline branch appends the record at the end of the queue, persists the whole new queue, shows the offline outcome and counts one success |
| `ScannerApp.QRScannerApp.ProcessQRCode` | qr-scanner-app/src/QRScannerApp.jsx:50-110 | an empty decode changes nothing. Otherwise `total` rises by exactly one and exactly one of `successful`/`failed` does. Offline, the record is appended at the end of the queue and the persisted copy equals the new queue. Scanning stops with the outcome shown and one more timer pending |
| `ScannerApp.QRScannerApp.HandleScan` | qr-scanner-app/src/QRScannerApp.jsx:157-166 | only the first result's `rawValue` is processed, and only when it is a non-empty string; otherwise nothing changes |
| `ScannerApp.QRScannerApp.SyncPendingScans` | qr-scanner-app/src/QRScannerApp.jsx:141-155 | each queued entry is resent once, in order. The queue and its persisted copy both become the failed entries in their order. Every delivery adds one to `total` and `successful`, `failed` is unchanged, and `lastScan` is left as `LastShown` gives |
| `ScannerApp.QRScannerApp.SetOnline` | qr-scanner-app/src/QRScannerApp.jsx:25-48 | a repeated state changes nothing. Going offline changes only `isOnline`. Going online runs exactly one sync pass over the current queue, which leaves nothing changed when the queue is empty |
| `Scenarios.OfflineScansPersist` | qr-scanner-app/src/QRScannerApp.jsx:69-89 | three decodes while offline queue three records in order, without merging equal payloads. They count `total = successful = 3`, and a remount from the persisted entry restores the same queue |
| `Scenarios.PartialSync` | qr-scanner-app/src/QRScannerApp.jsx:43-48 | reconnecting with `[A, B, C]` queued where only B fails keeps `[B]`, counts two successes, and shows C's outcome |
| `Scenarios.ScanCycle` | qr-scanner-app/src/QRScannerApp.jsx:104-109 | the views run idle, scanning, result; stop does nothing in result; after the timer it is scanning, then stop gives idle |
| `Scenarios.IgnoredDecodes` | qr-scanner-app/src/QRScannerApp.jsx:157-165 | an empty batch, a missing first `rawValue` and an empty one count nothing and leave the scanner scanning |
| `Scenarios.SyncBeforeTimer` | qr-scanner-app/src/QRScannerApp.jsx:69-155 | after an offline decode and a reconnection whose resend is accepted, the resend's success outcome is shown and `total` is 2 for that one scan; that decode's still-pending timer then returns the view to scanning |
| `Scenarios.ResultAfterSync` | qr-scanner-app/src/QRScannerApp.jsx:141-155 | after a sync that delivers, the result view is shown with no timer pending, and start, stop and the timer step all leave it there |

## Left out

- Rendering, CSS and icons (lines 172-351): pure UI. The views are modelled only as `CurrentView`.
- The camera and QR decoding library (`Scanner`): a foreign component. Its output is the `results` argument of `HandleScan`. The model does not restrict `HandleScan` to the scanning view; in the app only that view mounts the decoder.
- `fetch`, HTTP and JSON encoding of the request and the response: network I/O. Each POST's result is a `Reply` input. JSON members other than strings (a numeric `message`, say) are not modelled. A JSON body that is neither an object nor `null` acts like an object without members.
- `localStorage` and `JSON.parse`/`JSON.stringify` of the saved queue: storage is the abstract `storage` field. A failing write (quota) and a malformed saved entry, both of which would throw, are not modelled.
- `window` online/offline listeners and their removal at unmount: platform events, modelled as `SetOnline`.
- The 3000 ms delay, `Date.now()` and `toISOString()`: timing and the clock. The delay is the `TimerFired` step; clock readings are the opaque `now` and `scannedAt` inputs.
- ScannerApp.QRScannerApp.SyncPendingScans: all accepted resends of one pass carry the same `now` reading, whereas each `Date.now()` in the source is read separately; only the last one stays visible.
- React's asynchronous interleavings: concurrency effects of the framework. Each handler is atomic. Not modelled: an offline enqueue racing an in-flight sync over the captured `pendingScans`; a second decode arriving while a post is awaited; state captured by stale closures.
- Webhook.Submit: for a JSON `null` body, the TypeError text is fixed to V8's wording (`NullMessageRead`, `NullErrorRead`); other engines word it differently. The transport and JSON-syntax error texts are inputs.
- `console.error` in `handleError` (lines 168-170): logging only.
