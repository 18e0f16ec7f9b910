# Game-server console page: a Dafny model

The console page (`static/js/index.js`) logs an operator in with a salted challenge,
polls the server's terminal output and resource usage, and sends privileged commands:
stop the server, trigger a manual backup, print resource usage, print the player list,
restore a chosen backup. This project models the deterministic core of that script and
proves what it does:

- `Backups`: the colour class of a backup name (`getClassForBackup`) and the size and
  date suffix shown beside it (`getBackupDescriptionString`).
- `Auth`: the cached admin hash (upper-cased SHA-256 hex of the admin code) and the
  Authorization token (SHA-256 hex of the cached hash followed by the upper-cased salt).
- `Console.Page`: the page's mutable state as a class. It holds the seven-button
  interaction lock as an `array<bool>`, the selected backup, the restore dropdown, the
  poller's interval handle, the cached hash, the login view and the log of requests sent.
  Every privileged action takes its round-trip outcome as a parameter:
  `SaltFailed`, `XhrFailed(salt)` or `Loaded(salt, response)`.
- `Scenarios`: sequences of calls proved from the operations' contracts alone.
- `Text`, `Wrappers`: digit runs, ASCII upper-casing, `Option`.

Foreign functions are parameters of the page: `sha256Hex` stands for sjcl's SHA-256 with
hex output, and `localeString` stands for `new Date(ms).toLocaleString()`. Nothing is
assumed about either.

Four things the code does that a reader of the page might not expect:

- The lock is released only by `xhr.onload` (lines 179-182, 203-205, 227-229, 251-253,
  278-280). A failed salt fetch has no `.catch`, and a transport error never fires
  `onload`. After either, all seven buttons stay disabled.
- Every privileged action except login reuses the hash cached by the last login (line 81).
  Before the first login that hash is `undefined`, which concatenation renders as the text
  "undefined".
- `attemptLogin` never takes the lock, but it releases it on load (line 101).
- The Authorization token is lower-case hex (lines 87-91). Only the cached hash is
  upper-cased (line 52).

## Model

| member | source | states |
|---|---|---|
| Text.DigitRun | static/js/index.js:288-289 | the length of the longest all-digit prefix: every character before it is `\d`, the next one is not |
| Text.DigitRunOf | static/js/index.js:288-289 | a digit prefix ended by a non-digit or by the end is exactly the matched run |
| Text.Upper | static/js/index.js:52 | upper-casing keeps the length and maps each character through ASCII upper case |
| Text.UpperHasNoLower | static/js/index.js:52 | an upper-cased string has no lower-case letter |
| Text.UpperIdempotent | static/js/index.js:89 | upper-casing twice equals upper-casing once |
| Text.UpperConcat | static/js/index.js:89 | upper-casing distributes over concatenation |
| Backups.TypeOfTag | static/js/index.js:1-6 | the table lookup finds a type exactly when the text is one of the four keys, case-sensitively |
| Backups.ClassesDistinct | static/js/index.js:1-6 | no class is empty and no two types share a class |
| Backups.StripTypeTag | static/js/index.js:9 | the global removal of digit runs ended by `_` and of `.zip` (any case) never lengthens the name |
| Backups.ClassForBackupSpec | static/js/index.js:8-11 | the result is `''` iff the stripped name is no key, and is a type's class iff the stripped name is that type's tag |
| Backups.StripTimestampPrefix | static/js/index.js:9 | a leading run of digits followed by `_` is removed whole |
| Backups.StripPlainZip | static/js/index.js:9 | text with no digit and no `.`, followed by `.zip` in any case, strips to itself |
| Backups.StripPlain | static/js/index.js:9 | text with no digit and no `.` is left unchanged |
| Backups.TagIsPlain | static/js/index.js:1-6 | no key contains a digit or a `.` |
| Backups.ClassForTimestampedName | static/js/index.js:8-11 | a name of the form `<digits>_<TYPE>.zip`, extension in any case, gets the class of TYPE |
| Backups.ExampleScheduled | static/js/index.js:8-11 | `1700000000_SCHEDULED.zip` gives `text-secondary` |
| Backups.ExampleForcedStopUpperCaseZip | static/js/index.js:8-11 | `1700000000_ON_FORCED_STOP.ZIP` gives `text-danger` |
| Backups.ExampleUnknownType | static/js/index.js:8-11 | `foo.zip` gives `''` |
| Backups.DescriptionStringSpec | static/js/index.js:284-293 | `''` for no backup; otherwise non-empty iff the name starts with a digit, and then the size text followed by the date of the leading seconds times 1000 |
| Backups.DescriptionContainsSize | static/js/index.js:290-291 | a non-empty description holds the size text right after ` (` |
| Backups.SampleTimestampValue | static/js/index.js:291 | the digits `1700000000` denote the number 1700000000 |
| Backups.ExampleDescription | static/js/index.js:284-293 | `1700000000_MANUAL.zip` with size `12.5 MB` is described with that size and the date of 1700000000000 ms |
| Backups.ExampleNoTimestamp | static/js/index.js:284-293 | `nightly.zip` gets an empty description |
| Auth.AdminHash | static/js/index.js:45-53 | the cached hash is as long as the digest and contains no lower-case letter |
| Auth.TokenIgnoresSaltCase | static/js/index.js:85-92 | salts differing only in case give the same token |
| Auth.TokenOfNormalizedPair | static/js/index.js:81-92 | after a login the token is the digest of the upper-cased concatenation of cached hash and salt |
| Console.MapSeqAt | static/js/index.js:304-313 | `forEach` with one append per element puts the entry built from element k at position k |
| Console.OptionsForAt | static/js/index.js:304-313 | the rebuilt dropdown has one entry per backup, and entry k is the one built from backup k alone |
| Console.Page.constructor | static/js/index.js:43-158 | page load: no hash cached (line 43), buttons as the markup sets them (lines 55-63), and the load-time `setRefreshRate()` with the field at 5000 gives one refresh cycle and one interval at 5000 (lines 147-158) |
| Console.Page.EnterAdminCode | static/js/index.js:49 | editing the admin-code field changes nothing else, in particular not the cached hash |
| Console.Page.DisableInteraction | static/js/index.js:65-69 | all seven buttons disabled; only the button flags change |
| Console.Page.EnableInteraction | static/js/index.js:71-75 | all seven buttons enabled; only the button flags change |
| Console.Page.SetSelectedBackup | static/js/index.js:317-331 | selected name is the backup's name or `''`, description is its description string, restore button disabled iff no backup; the other buttons and all other state unchanged |
| Console.Page.SelectOption | static/js/index.js:309-311 | clicking an entry selects that entry's backup and enables the restore button |
| Console.Page.RefreshBackupList | static/js/index.js:295-315 | selection cleared and restore disabled first; on response one entry per backup, in order, with class `dropdown-item ` plus its class, text name plus description, value name |
| Console.Page.RebuildOptions | static/js/index.js:303-313 | the dropdown is emptied, then the entry built from each backup is appended in order, so it ends as the mapped inventory |
| Console.Page.SetRefreshRate | static/js/index.js:147-158 | one immediate refresh cycle, the previous handle cleared, exactly one interval left and its period is the new rate |
| Console.Page.IntervalFired | static/js/index.js:142-145 | a firing interval runs one refresh cycle and changes nothing else |
| Console.Page.AttemptLogin | static/js/index.js:77-105 | the hash is recomputed once the salt arrives and the token built from it; post-login view only for response `true`, otherwise the notice; buttons enabled only on load |
| Console.Page.RunPrivileged | static/js/index.js:186-207 | lock taken, salt request, authorized request unless the salt failed, token from the cached hash; lock released only on load |
| Console.Page.StopServer | static/js/index.js:162-184 | as above for `/stop`; on load the selection is cleared and then every button enabled |
| Console.Page.TriggerManualBackup | static/js/index.js:186-207 | the privileged round trip to `/trigger-manual-backup` |
| Console.Page.TriggerPrintResourceUsage | static/js/index.js:209-231 | the privileged round trip to `/trigger-print-resource-usage` |
| Console.Page.TriggerPrintPlayerList | static/js/index.js:233-255 | the privileged round trip to `/trigger-print-player-list` |
| Console.Page.TriggerRestoreBackup | static/js/index.js:257-282 | the privileged round trip to `/trigger-restore-backup` with body naming the selected backup |
| Scenarios.SelectThenRestore | static/js/index.js:273-277 | a restore after clicking an entry sends that entry's backup name |
| Scenarios.StopAfterSelection | static/js/index.js:179-182 | after a completed stop nothing is selected, yet the restore button is enabled |
| Scenarios.LockHeldAfterSaltFailure | static/js/index.js:186-207 | a failed salt fetch leaves all buttons disabled while the poller keeps refreshing |
| Scenarios.LockHeldAfterTransportFailure | static/js/index.js:233-255 | a request sent without `onload` firing leaves all buttons disabled |
| Scenarios.ChangeRefreshRateTwice | static/js/index.js:150-157 | two rate changes leave one interval at the latest rate |
| Scenarios.StopUsesHashCachedAtLogin | static/js/index.js:166-177 | a stop's token uses the hash cached at login, not the code typed since |
| Scenarios.ActionBeforeLogin | static/js/index.js:43 | before any login the token is the digest of "undefined" plus the upper-cased salt |
| Scenarios.RefreshThenSelect | static/js/index.js:295-331 | refreshing the list resets the selection, after which a new entry can be selected |
| Scenarios.RejectedLogin | static/js/index.js:94-101 | a rejected login shows the notice, stays on the login view and enables the buttons |

## Left out

- HTTP itself (`fetch`, `XMLHttpRequest`, headers, JSON encoding). Only the sequence of request targets, tokens and bodies is recorded, and each round trip's outcome is a parameter. A request's body is the argument passed to `send`, so the `GET /is-auth-valid` of a login is recorded with `{}` even though `XMLHttpRequest` sends no body with a GET.
- SHA-256 and hex encoding (the sjcl library): a parameter `sha256Hex` of which nothing is assumed.
- `Date.prototype.toLocaleString`: a parameter `localeString`. Large timestamps lose float precision or give an invalid date inside `new Date(timestamp * 1000)`; that rounding is left to the parameter, which receives the exact integer.
- Text.Upper: ASCII only. JavaScript's `toUpperCase` also maps non-ASCII letters, and some of those expand (`ß` to `SS`). Hex digests are ASCII, so the cached hash is exact; only a non-ASCII salt would differ.
- `formatBytes`, `sec2time` and the rendering in `refreshServerResourceUsageInfo`: floating-point formatting.
- What the status fetches display, and their `.catch` messages: only the two requests of each refresh cycle are recorded.
- The asynchronous interleaving of a round trip with other events: each privileged action runs from lock to completion in one call. The poller's own firing is an operation, `IntervalFired`.
- Real timer semantics of `setInterval`/`clearInterval` and the string-to-number coercion of the `refresh-rate` field: only handle bookkeeping, with handles counting up from 1.
- Event-listener wiring (lines 333-370), including the Enter key in the admin-code field.
- `innerHTML` parsing: the selected name written to and read back from `selected-backup` is taken to round-trip unchanged.
- Inherited keys of `backupTypeToClassColor` (a name that strips to `toString`): the table has exactly its four keys.
- Non-string `name` fields in the backup inventory. There `getClassForBackup` would throw; names are strings here.
- The initial text of the selection fields and of the dropdown comes from the markup, which is not part of this model; it is taken to be empty.
