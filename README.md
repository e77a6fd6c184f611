# hugjobk/logger: a Dafny model of the logger core

This project models the core of the `hugjobk/logger` NestJS logging library:

- the ANSI colour helpers and the annotation formatter (`formatText`, `removeColor`, `formatObject`, and the module-level `formatMessage`);
- the `Logger` class, which writes every log line and forwards the colour-stripped line to a notification backend. It reports a failed notification through the parent `ConsoleLogger`, and it forwards stack traces to the backend;
- `LoggerModule.register`, which defaults and validates the notification level and picks at most one backend;
- the Slack and Discord notification services. The Discord service posts a message in slices of at most 2000 characters (`String.length` units), awaiting each post.

Each Dafny file is one module; `logger.service.ts` is spread over `Levels`, `Colors`, `Annotations` and `Logging`, and `Levels` also holds the `LOG_LEVELS` check of `logger.module.ts`:

| Dafny file | module | source |
|---|---|---|
| `levels.dfy` | `Levels` | the NestJS levels and the 7-character level label |
| `colors.dfy` | `Colors` | `Color`, `isColorAllowed`, `formatText`, `removeColor` |
| `annotations.dfy` | `Annotations` | `formatObject`, module-level `formatMessage` |
| `logger.dfy` | `Logging` | class `Logger` |
| `registration.dfy` | `Registration` | `LoggerModule.register` |
| `notification.dfy` | `Notification` | `SlackNotificationService`, `DiscordNotificationService` |
| `wrappers.dfy` | `Wrappers` | `Option` and `Result` |

How the pieces are represented:

- **`removeColor`** is a recursive function that follows the left-to-right scan of the global regular expression `/\x1b\[[0-9;]*m/g`. `SgrMatchExact` proves that it recognises exactly the matches of that expression.
- **`formatObject`** is a method with the source's `for` loop and `push`. It is proved against the specification function `ObjectText`, which joins the per-property segments.
- **The `Logger`** is a class. Its fields are:
  - the notification level and backend;
  - the parent's opaque formatting helpers;
  - the parent's `lastTimestampAt`;
  - a trace of events: `Write`, `Notify`, `ParentPrint` for a call of `super.printMessages`, and `ParentStackTrace`.
- **`printMessages`** is proved against the specification functions `Lines` and `Dispatch`. A rejected notification is its own method, `OnNotifyRejected`, which stands for the `.catch` continuation. A ghost counter of unsettled notifications ties each failure line to an earlier notification.
- **A webhook client** records every payload it sends. The outcome of the n-th send is the network's answer `transport(n)`.

## Model

| member | source | states |
|---|---|---|
| Levels.Parse | src/logger/logger.module.ts:26 | `LOG_LEVELS.includes(s)`: yields level l exactly when s is l's name, and nothing for any other string |
| Levels.Label | src/logger/logger.service.ts:62 | the level label written on each line is always seven characters |
| Levels.LabelShape | src/logger/logger.service.ts:62 | the level label is 7 characters: spaces, then the level name upper-cased character by character (`toUpperCase().padStart(7, " ")`) |
| Colors.IsColorAllowed | src/logger/logger.service.ts:135 | colour is allowed when NO_COLOR is unset or empty; any non-empty value turns it off |
| Colors.FormatText | src/logger/logger.service.ts:128-138 | with colour allowed, `formatText(c, t)` is c's escape code, then t, then `ESC[0m`; otherwise it is t unchanged |
| Colors.ParamRunSpec | src/logger/logger.service.ts:140 | the scanned run is the longest prefix of `[0-9;]` characters |
| Colors.SgrMatchExact | src/logger/logger.service.ts:140 | a prefix of s matches `\x1b\[[0-9;]*m` exactly when the scan finds a match of that length at the start of s; the match is unique |
| Colors.RemoveColor | src/logger/logger.service.ts:140-142 | `removeColor` never lengthens its input |
| Colors.RemoveColorKeepsCharacters | src/logger/logger.service.ts:140-142 | every character of the result occurs in the input at least as often |
| Colors.RemoveColorPlain | src/logger/logger.service.ts:140-142 | a string without ESC is returned unchanged |
| Colors.RemoveColorPlainPrefix | src/logger/logger.service.ts:140-142 | a prefix without ESC passes through ahead of whatever the rest strips to |
| Colors.RemoveColorFormattedPrefix | src/logger/logger.service.ts:137-142 | formatted text at the front of a string strips to its plain text, colour on or off |
| Colors.RemoveColorRoundTrip | src/logger/logger.service.ts:137-142 | `removeColor(formatText(c, t)) == t` for every colour and every t without ESC, colour on or off |
| Colors.RemoveColorNested | src/logger/logger.service.ts:140-142 | deleting a colour code nested after an unfinished `ESC[` assembles a new `ESC[…m` sequence |
| Colors.RemoveColorNotIdempotent | src/logger/logger.service.ts:140-142 | a second pass of `removeColor` can delete that assembled sequence, so stripping is not idempotent |
| Annotations.Segment | src/logger/logger.service.ts:117-121 | with colour off a segment is `key=` followed by the inspected value; with colour on the cyan key, the `=`, the value's colour and the two resets together add 19 characters to key and value |
| Annotations.Segments | src/logger/logger.service.ts:112-122 | `txt` holds one segment per property whose value is neither null nor undefined |
| Annotations.SegmentsSnoc | src/logger/logger.service.ts:112-122 | one more loop iteration pushes that property's segment, or nothing for a null value |
| Annotations.FormatObject | src/logger/logger.service.ts:109-126 | the loop with `continue` and `push`, then `join(" ")`, produces `ObjectText`: the non-null segments, in order, joined by single spaces |
| Annotations.SegmentsInOrder | src/logger/logger.service.ts:112-122 | the segment of property i sits at the position given by the number of non-null properties before it |
| Annotations.NonNullCountZero | src/logger/logger.service.ts:115 | no segment is produced exactly when every value is null or undefined |
| Annotations.ObjectText | src/logger/logger.service.ts:109-126 | `formatObject`'s result (segments joined by single spaces) is `""` exactly when the object is empty or all-null |
| Annotations.SegmentColors | src/logger/logger.service.ts:117-121 | with colour on, `key=` is cyan, and the value is red exactly when the key is `"error"`, white otherwise |
| Annotations.RemoveColorObjectText | src/logger/logger.service.ts:109-126 | for plain keys and values, stripping the coloured rendering gives the rendering with colour off |
| Annotations.FormatMessage | src/logger/logger.service.ts:103-107 | the white message comes first; without params nothing follows it; with params (even empty or all-null ones) one space and `formatObject(params)` follow |
| Annotations.RemoveColorFormatMessage | src/logger/logger.service.ts:103-107 | stripping `formatMessage` gives the message, or the message, one space and the plain annotations |
| Annotations.FormatMessageAllNull | src/logger/logger.service.ts:103-107 | an all-null params object still adds the separating space: the result ends in a trailing blank |
| Logging.Lines | src/logger/logger.service.ts:58-70 | one formatted line per message |
| Logging.LinesAt | src/logger/logger.service.ts:58-70 | line i is formatted from message i, the level label, pid and context; its time difference is taken from the previous line's time |
| Logging.DispatchWritesEveryLine | src/logger/logger.service.ts:58-72 | every line is written once, in order, nothing else is written, and the parent's `printMessages` is not called |
| Logging.DispatchWritesToStream | src/logger/logger.service.ts:72 | every write goes to the requested stream |
| Logging.DispatchNotifies | src/logger/logger.service.ts:74-76 | when notifying, the notified texts are exactly the colour-stripped lines in order; otherwise nothing is notified |
| Logging.DispatchWriteBeforeNotify | src/logger/logger.service.ts:72-76 | each notification directly follows the write of its own line and carries that line colour-stripped |
| Logging.NotifiedAppend | src/logger/logger.service.ts:74-76 | the notifications of two event runs are those of the first, then those of the second |
| Logging.Logger.constructor | src/logger/logger.service.ts:15-22 | a new logger keeps its level and backend and starts with an empty trace |
| Logging.Logger.IsNotificationEnabled | src/logger/logger.service.ts:24-26 | a level notifies when it ranks at or above the threshold: the threshold itself and fatal always do, and a verbose threshold passes every level |
| Logging.Logger.ShouldNotify | src/logger/logger.service.ts:74 | no backend means no notification; with a backend, notification happens exactly when the level is enabled |
| Logging.Logger.WriteLines | src/logger/logger.service.ts:58-85 | the loop emits exactly `Dispatch(Lines(…))`, notifying iff a backend exists and the level passes the threshold, and ends at the last message's time |
| Logging.Logger.PrintMessages | src/logger/logger.service.ts:52-86 | appends exactly those events to the trace, advances the timestamp to the last message's time, and counts each notification as pending |
| Logging.Logger.PrintStackTrace | src/logger/logger.service.ts:88-100 | the parent prints the stack, then the raw stack is notified whenever a backend exists, with no level check |
| Logging.Logger.OnNotifyRejected | src/logger/logger.service.ts:77-84 | a rejection adds one parent `printMessages` call with `Failed to send notification: <error>`, context `Logger`, level error and stream stderr; no notification is added; the parent's clock reading becomes the previous time |
| Logging.Logger.OnNotifyResolved | src/logger/logger.service.ts:75-76 | a resolved notification prints nothing |
| Registration.SelectBackend | src/logger/logger.module.ts:31-54 | slack/discord use the configured URL and ignore the environment; auto prefers a non-empty Slack URL, then a non-empty Discord URL, else none; any other type gives none |
| Registration.Register | src/logger/logger.module.ts:15-71 | fails exactly when `notification` is absent or the defaulted level is not a NestJS level; otherwise it provides that level and the selected backend |
| Registration.RegisterDefaultsToWarn | src/logger/logger.module.ts:24 | a missing level becomes warn |
| Registration.RegisterRejectsUnknownLevel | src/logger/logger.module.ts:26-27 | an unknown level fails with `Invalid NOTIFICATION_LEVEL: <level>` whatever the type and environment |
| Registration.RegisterAbsentNotificationFails | src/logger/logger.module.ts:24 | an absent `notification` fails and does not configure "no backend" |
| Registration.RegisterGuarded | src/logger/logger.module.ts:24-54 | with the guard applied, an absent `notification` gives warn and no backend; otherwise it agrees with `Register` |
| Notification.WebhookClient.Send | src/logger/notification.service.ts:18 | one send records its payload; its outcome is the transport's answer for that send |
| Notification.SlackNotificationService.constructor | src/logger/notification.service.ts:11-13 | the client is built from the webhook URL and has sent nothing |
| Notification.SlackNotificationService.Notify | src/logger/notification.service.ts:15-19 | an empty message sends nothing and resolves; otherwise it sends exactly one `{ text: message }` and settles as that send did |
| Notification.DiscordNotificationService.constructor | src/logger/notification.service.ts:25-29 | the client is built from the webhook URL and has sent nothing |
| Notification.DiscordNotificationService.Notify | src/logger/notification.service.ts:31-40 | sends a prefix of the slices in order; every post but the last sent succeeded; resolves iff all slices went out and none failed; otherwise rejects with the failing post's error |
| Notification.Chunks | src/logger/notification.service.ts:35-38 | the slices the loop posts: none for an empty message, otherwise the fewest slices of at most 2000 that cover it (2000·(k−1) < N ≤ 2000·k) |
| Notification.ContentPayloadsSnoc | src/logger/notification.service.ts:36-38 | posting one more slice appends its `{ content }` payload |
| Notification.ChunksConcat | src/logger/notification.service.ts:35-38 | the slices concatenate back to the message |
| Notification.ChunksCount | src/logger/notification.service.ts:35 | a message of N units takes ceil(N / 2000) slices |
| Notification.ChunksSized | src/logger/notification.service.ts:35-37 | every slice has 1 to 2000 units, and all but the last exactly 2000 |
| Notification.ChunkAt | src/logger/notification.service.ts:35-37 | slice j is `message.substring(2000 * j, min(2000 * j + 2000, message.length))` |

## Left out

- NestJS's `isLogLevelEnabled` is not shown in the repository. `Levels.IsLogLevelEnabled` assumes that, with a single threshold, a level is enabled when its rank in verbose < debug < log < warn < error < fatal is at least the threshold's.
- The `ConsoleLogger` helpers `formatPid`, `formatContext` and the protected `this.formatMessage` are opaque function parameters. So is the text part of `updateAndGetTimestampDiff`. The clock readings of `Date.now()` are a sequence parameter, one per message.
- `super.printStackTrace` and `super.printMessages` are recorded as events. What the parent writes for them is not modelled; of the parent's state only the timestamp update of the failure line is.
- `lastTimestampAt` is a static field of `ConsoleLogger`, shared by all logger instances. It is modelled per logger.
- `errorf`, `logf`, `warnf`, `debugf`, `verbosef` and `fatalf` only route a `formatMessage` result into NestJS's level methods. That routing is library code and is not modelled.
- `util.inspect(value, false, 10)` is the parameter `inspect`. `for...in` iteration order, including inherited keys, is given by the order of the entry sequence.
- Promise scheduling is not modelled: when a notification settles relative to later writes, and the interleaving of concurrent notifications. A settlement is a separate method call, `OnNotifyRejected` or `OnNotifyResolved`, made at some later point.
- Process I/O and `process.env` are not accessed: writes are recorded in the trace, and the two webhook variables are parameters. The network is the `transport` function of a webhook client. The clients of `@slack/webhook` and `discord.js` are not modelled beyond that.
- Logging.Logger.PrintMessages: messages are modelled as strings; the source accepts `unknown[]`. The default argument values (`""`, `"log"`, `"stdout"`) belong to the caller and are not modelled.
- Annotations.FormatMessage: the message is a string. Under NO_COLOR the source passes a non-string message through untouched.
- Notification.DiscordNotificationService.Notify: messages are Dafny strings of Unicode scalar values, so a message holding a character outside the Basic Multilingual Plane (an emoji, say), which JavaScript stores as two UTF-16 code units, cannot be expressed. The slicing, counting and size properties (Notification.Chunks, Notification.ChunksCount, Notification.ChunksSized, Notification.ChunkAt) are proved only for messages whose length in characters equals their `String.length`; a slice boundary that splits a surrogate pair is not modelled.
- Registration.Register: the failure for an absent `notification` is the named error `NotificationUndefined`, not the JavaScript `TypeError` object. A missing `webhookUrl` for "slack" or "discord" is not modelled; the declared type requires it.
- Colors.RemoveColorNotIdempotent: `removeColor` is not idempotent, so no idempotence property is stated. Deleting an inner code can join `ESC[` to a later `…m`, as in `"\x1b[\x1b[0m0m"`, which strips to `"\x1b[0m"` and then to `""`.

## Findings

| source | as written | input that shows it | evidently intended | confidence | as-written member | corrected member |
|---|---|---|---|---|---|---|
| src/logger/logger.module.ts:24 | `options.notification.level` is read before the `if (options.notification)` guard at line 31, so that guard can never be false when reached | `register({})`: reading `level` of undefined throws instead of configuring no backend | an absent `notification` gives the default level warn and no backend (`options.notification?.level ?? "warn"`) | high, not executed | Registration.RegisterAbsentNotificationFails | Registration.RegisterGuarded |
