# tts_watcher file listener, modelled in Dafny

The file listener watches two directory trees: the include tree and the
script tree. It turns each changed file's path into GUIDs. It then gathers
those GUIDs into a pending set while the changes keep coming, and after a
quiet period it hands the whole set to a callback once. This project models
two parts of it:

- **Path resolution** (`JsString.dfy`, `PathResolver.dfy`). A changed script
  file's GUID is `filename.substring(SCRIPT_DIR.length - 1,
  filename.indexOf("."))`. A changed include file's key is the same
  expression on `INCLUDE_DIR`, with every backslash then turned into `/`. The
  JavaScript built-ins are modelled with the semantics ECMAScript gives them,
  with positions counted in characters (see "## Left out" on UTF-16):
  `indexOf` returns the first position or -1, `substring` clamps both
  arguments to `[0, length]` and swaps them when start is after end, and
  `replaceAll` replaces every occurrence. The proved consequences follow the
  code:
  - the GUID starts one character before the end of the root name;
  - it stops at the first `.` anywhere in the path;
  - a path with no `.` yields the LEADING `rootLen - 1` characters, because
    -1 clamps to 0 and the arguments swap;
  - a `.` before the start (a dotted directory above the root) makes the
    arguments swap.
- **The debounce state machine** (`ListenerSpec.dfy`, `FileListener.dfy`).
  Its state is the pending set `updatedFiles`, the `skip` flag and the single
  timer slot (`armed`). `ListenerSpec` gives each handler and the timer body
  as a step function on a `ListenerState` value, and proves what bursts of events
  add up to:
  - coalescing into one batch that holds the union;
  - a skip suppressing exactly the next fire, whichever burst produced it;
  - an unmatched include doing nothing;
  - an empty include entry arming the timer without adding anything;
  - an invariant kept by every step: each pending GUID has been rescanned,
    and a non-empty pending set always has a timer armed, so every GUID the
    callback receives was scanned first;
  - a stronger, burst-level fact: every GUID pending at the end of a burst
    was scanned by a call made during that burst, not merely at some earlier
    time.

  `Listener.FileListener` is the class. Its fields are updated in place, and
  each handler and `Fire` is proved to follow the matching step function.

Things outside the listener become parameters:
- The lengths of `constants.INCLUDE_DIR` and `constants.SCRIPT_DIR` are
  constructor parameters (`includeRootLen`, `scriptRootLen`). `Constants.js` is
  not part of this model.
- The include map that `includeScanner.getMap()` returns is a parameter of
  `IncludeUpdate`.
- Each `includeScanner.scan([guid])` call is recorded, with its one-element
  argument list, in the ghost log `scans`.
- The real timer is the flag `armed`. The timer body is the method `Fire`,
  which can only run while a timer is armed. `setTimer` first cancels any
  earlier timer with `clearTimeout(this.timeout)` (src/FileListener.js:75) and only then
  schedules a new one with `setTimeout`, so there is never more than one
  pending fire. After a fire,
  `this.timeout` still holds the spent handle. Clearing a spent handle does
  nothing, so `Fire` leaves `armed` false.
- Each set handed to the callback `cb` is returned by `Fire` and recorded in
  the ghost log `delivered`.

Consequences of the code that are easy to miss:
- With a root name such as `/proj/scripts/` (14 characters), the code yields
  `/MyCard` for `/proj/scripts/MyCard.ttslua`, not `MyCard`. This is the
  `- 1` (`ExtractTrailingSlashExample`). With a root such as `./scripts`
  against the watcher's `scripts/...` paths, it yields `MyCard`
  (`ExtractRelativeRootExample`).
- A path with no `.` resolves to its leading characters, not to the rest of
  the path after the root (`ExtractWithoutDot`).
- The callback can be handed an EMPTY set. An include key whose entry is an
  empty array is truthy in JavaScript, so it arms the timer while adding
  nothing (`EmptyEntryDeliversEmptyBatch`).
- There is no `stop()`, so nothing cancels a pending timer.

## Model

| member | source | states |
|---|---|---|
| JsString.IndexOf | src/FileListener.js:68 | `indexOf(".")` is -1 exactly when the character is absent; otherwise it is a position holding it with no earlier occurrence (the first one) |
| JsString.JsSubstring | src/FileListener.js:68 | `substring` returns at most the whole string, and always a contiguous run of it |
| JsString.JsSubstringInRange | src/FileListener.js:68 | with 0 <= start <= end <= length, substring is the slice `s[start..end]` |
| JsString.JsSubstringSwaps | src/FileListener.js:68 | substring gives the same result with its arguments exchanged (the swap when start > end) |
| JsString.JsSubstringNegativeIsZero | src/FileListener.js:68 | a negative argument, in either position, acts as 0 |
| JsString.JsSubstringBeyondIsLength | src/FileListener.js:68 | an argument past the end, in either position, acts as the length |
| JsString.ReplaceChar | src/FileListener.js:55 | `replaceAll` keeps the length and replaces exactly the occurrences of the pattern character; none remain afterwards |
| JsString.ReplaceCharAbsent | src/FileListener.js:55 | replacing a character that does not occur returns the string unchanged |
| JsString.ReplaceCharIdempotent | src/FileListener.js:55 | applying the replacement twice is the same as applying it once |
| JsString.ReplaceCharExample | src/FileListener.js:55 | `"sub\Util".replaceAll("\\", "/")` is `"sub/Util"` |
| PathResolver.Extract | src/FileListener.js:68 | the script GUID is never longer than the changed path |
| PathResolver.IncludeKey | src/FileListener.js:54-55 | the include key has the raw extraction's length and holds no backslash |
| PathResolver.IncludeKeyAt | src/FileListener.js:55 | each key character is the raw extraction's character at that position, with `\` turned into `/` |
| PathResolver.IncludeKeyWithoutBackslash | src/FileListener.js:54-55 | when the raw extraction holds no backslash, the include key equals the script-style extraction |
| PathResolver.ExtractEndsAtFirstDot | src/FileListener.js:68 | when the first `.` is at or after `rootLen - 1`, the GUID is exactly the path from `rootLen - 1` (clamped at 0) up to that first dot, and it holds no dot |
| PathResolver.ExtractWithoutDot | src/FileListener.js:68 | a path with no `.` yields its leading `rootLen - 1` characters (or the whole path if it is shorter) |
| PathResolver.ExtractDotBeforeStart | src/FileListener.js:68 | a first `.` before `rootLen - 1` makes substring swap: the GUID runs from that dot to `rootLen - 1`, or to the end of a shorter path, and starts with `.` |
| PathResolver.ExtractRelativeRootExample | src/FileListener.js:68 | root `./scripts` and path `scripts/MyCard.ttslua` give `MyCard` |
| PathResolver.ExtractMultiDotExample | src/FileListener.js:68 | `scripts/Deck.min.ttslua` gives `Deck`: extraction stops at the first dot |
| PathResolver.ExtractTrailingSlashExample | src/FileListener.js:68 | root `/proj/scripts/` and path `/proj/scripts/MyCard.ttslua` give `/MyCard` |
| PathResolver.ExtractWindowsExample | src/FileListener.js:54 | root `./include` and path `include\sub\Util.ttslua` give the raw key `sub\Util` |
| PathResolver.IncludeKeyWindowsExample | src/FileListener.js:54-55 | ... and the include key `sub/Util` |
| PathResolver.ExtractPosixIncludeExample | src/FileListener.js:54 | root `/proj/include/` and path `/proj/include/sub/Util.ttslua` give `/sub/Util` |
| ListenerSpec.Singletons | src/FileListener.js:60-61 | the scanner calls for an entry: one per GUID, in the entry's order, each the one-element list `[guid]` |
| ListenerSpec.ElementsSnoc | src/FileListener.js:60-62 | after one more loop iteration, the GUIDs added so far grow by exactly that iteration's GUID |
| ListenerSpec.SingletonsSnoc | src/FileListener.js:60-61 | after one more loop iteration, the scanner calls so far gain exactly `[guid]` at the end |
| ListenerSpec.InitialConsistent | src/FileListener.js:18-24 | a new listener satisfies the invariant: nothing is pending, so nothing is unscanned and no timer is needed |
| ListenerSpec.SingletonsScanEach | src/FileListener.js:60-62 | every GUID of an include entry is among that entry's scanner calls, as `[guid]` |
| ListenerSpec.ScanThenAddKeeps | src/FileListener.js:69-71 | scanning a GUID, adding it and arming the timer keeps the invariant |
| ListenerSpec.ScanAllThenAddKeeps | src/FileListener.js:60-64 | scanning and adding every GUID of an entry, then arming, keeps the invariant |
| ListenerSpec.ScriptStepKeeps | src/FileListener.js:67-72 | a script change keeps the invariant: the GUID it adds was just scanned, and it arms the timer |
| ListenerSpec.IncludeStepKeeps | src/FileListener.js:53-65 | an include change keeps the invariant, matched (each added GUID scanned, timer armed) or not (nothing changes) |
| ListenerSpec.ApplyKeeps | src/FileListener.js:29-72 | every kind of event (skip request, script change, include change) keeps the invariant |
| ListenerSpec.ApplyAllKeeps | src/FileListener.js:53-72 | any burst of events keeps the invariant |
| ListenerSpec.ApplyExtendsScans | src/FileListener.js:53-72 | an event only appends to the scan log: the old log is a prefix of the new one |
| ListenerSpec.ApplyAllExtendsScans | src/FileListener.js:53-72 | a burst only appends to the scan log |
| ListenerSpec.ScanThenAddFresh | src/FileListener.js:69-70 | scanning a GUID and adding it in the same step keeps every pending GUID scanned since a given log position |
| ListenerSpec.ScanAllThenAddFresh | src/FileListener.js:60-63 | scanning and adding every GUID of an entry keeps every pending GUID scanned since a given log position |
| ListenerSpec.ScriptStepFresh | src/FileListener.js:67-72 | a script change keeps every pending GUID scanned since a given log position |
| ListenerSpec.IncludeStepFresh | src/FileListener.js:53-65 | an include change, matched or not, keeps every pending GUID scanned since a given log position |
| ListenerSpec.ApplyFresh | src/FileListener.js:29-72 | every kind of event keeps every pending GUID scanned since a given log position |
| ListenerSpec.ApplyAllFresh | src/FileListener.js:53-72 | any burst keeps every pending GUID scanned since a given log position |
| ListenerSpec.FireKeeps | src/FileListener.js:76-83 | the fire keeps the invariant: it empties the pending set |
| ListenerSpec.DeliveredWasScanned | src/FileListener.js:77-82 | under the invariant, an unskipped fire delivers exactly the pending set, and every GUID in it was scanned before |
| ListenerSpec.ApplySummary | src/FileListener.js:29-72 | one event adds exactly its own GUIDs, arms exactly when it is a script change or a matched include, sets skip exactly for a skip request, and delivers nothing |
| ListenerSpec.BurstSummary | src/FileListener.js:53-76 | after any burst of events with no fire: the pending set is the old one plus the union of every event's GUIDs; a timer is armed iff one was before or some event armed one; skip is set iff it was before or some event requested it; nothing is delivered |
| ListenerSpec.CoalescedDelivery | src/FileListener.js:53-83 | from an empty pending set with no skip, a burst that arms the timer leaves one timer armed; its fire delivers exactly one batch, the union of all the burst's GUIDs, and empties the pending set; the burst only appends to the scan log, and every delivered GUID is among the calls it appended, so it was rescanned during the burst |
| ListenerSpec.SuppressedDelivery | src/FileListener.js:77-82 | if a skip was requested before or during a burst, the next fire delivers nothing, clears the flag and empties the pending set, whichever burst produced it |
| ListenerSpec.QuietBurst | src/FileListener.js:56-58 | a burst made only of unmatched include changes and skip requests adds nothing and arms no timer |
| ListenerSpec.UnmatchedIncludeIsIgnored | src/FileListener.js:56-58 | an include change whose key is absent from the map changes no part of the state |
| ListenerSpec.MatchedIncludeScansInOrder | src/FileListener.js:60-64 | a matched include change appends `[guid]` to the scan log for each GUID of the entry, in order; it makes the pending set the old one plus the entry and arms the timer |
| ListenerSpec.SkipIdempotent | src/FileListener.js:29-31 | requesting a skip twice is the same as requesting it once |
| ListenerSpec.SkipConsumedOnce | src/FileListener.js:77-82 | skip, then a change, then a fire delivers nothing; a following change and fire delivers exactly that change's GUID |
| ListenerSpec.UnionWithinBurst | src/FileListener.js:60-72 | a GUID added by a script change and again by an include entry, within one burst, is delivered once, in a single batch |
| ListenerSpec.EmptyEntryDeliversEmptyBatch | src/FileListener.js:58-64 | an include key mapped to an empty array still arms the timer, so the callback is handed the empty set |
| Listener.FileListener.constructor | src/FileListener.js:18-24 | a new listener has an empty pending set, no timer, skip unset and empty logs, and satisfies the invariant |
| Listener.FileListener.SkipNextUpdate | src/FileListener.js:29-31 | sets `skip` and changes nothing else |
| Listener.FileListener.IncludeUpdate | src/FileListener.js:53-65 | keeps the invariant and follows the include step. An absent key changes nothing. A present key adds the entry's GUIDs, logs their scans in order and arms the timer; skip and deliveries are untouched |
| Listener.FileListener.ScanAndAdd | src/FileListener.js:60-63 | the loop: afterwards the pending set gains the whole entry and the scan log gains one call `[guid]` per GUID, in the entry's order |
| Listener.FileListener.ScanAndAddGuid | src/FileListener.js:61-62 | one scanner call `[guid]` is appended to the log and the GUID is added to the pending set; nothing else changes, and if every pending GUID was scanned before, it still is |
| Listener.FileListener.ScriptUpdate | src/FileListener.js:67-72 | keeps the invariant; adds exactly the extracted GUID, appends `[guid]` to the scan log and arms the timer; skip and deliveries are untouched |
| Listener.FileListener.SetTimer | src/FileListener.js:74-76 | afterwards exactly one timer is armed, replacing any earlier one; nothing else changes |
| Listener.FileListener.Fire | src/FileListener.js:76-83 | keeps the invariant; every GUID handed on was scanned. With skip set: clears it and hands nothing on. Otherwise: hands exactly the pending set to the callback and logs it. Both ways the pending set is empty and no timer is armed |
| Listener.BurstThenFire | src/FileListener.js:53-83 | on the object: two script changes and a matched include change, then the fire, deliver one batch, the union of all their GUIDs |

## Left out

- `start()` and the two `chokidar.watch` subscriptions (src/FileListener.js:38-51). This includes the dotfile-ignore pattern passed to that library. It is filesystem notification through a foreign library. A watcher event is a call of `IncludeUpdate` or `ScriptUpdate`.
- Real time: `setTimeout`, `clearTimeout` and `constants.UPDATE_DELAY`. Only "armed, and replaced on re-arming" is modelled, with `Fire` as an explicit step and no clock.
- The `console.log` at src/FileListener.js:57: output only, with no effect on state.
- The internals of `includeScanner.scan` and `getMap`. They belong to a scanner that is not part of this model. The map is an input to `IncludeUpdate`, and the calls are logged.
- `getMap()[scriptName]` is a lookup on a plain JavaScript object. It can also find inherited properties such as `constructor`. The map here is a Dafny `map` holding arrays, so only keys that are really present match.
- The callback is handed the `Set` object itself, and the field is then given a fresh `Set`. Sets are values here, so aliasing of the handed-on set is not modelled.
- Stopping the listener: the code has no `stop()`, and none is modelled.
- `Constants.js` and `Uploader.js` are not part of this model. The root lengths are parameters, and `Uploader` is imported but unused by the listener.
- JsString.JsSubstring: the arguments are integers. `ToIntegerOrInfinity` of NaN, fractions and infinities is not modelled, because the listener only passes a length minus one and an `indexOf` result.
- Scanner failures: an exception thrown by `scan` would stop the loop part-way. The model has no failure path for the scanner.
- Positions in UTF-16 code units. JavaScript strings index UTF-16 code units, while a Dafny `char` is a whole Unicode character. For a path with characters outside the Basic Multilingual Plane, the real `indexOf` and `substring` offsets are shifted, and `substring` can split a surrogate pair. The model is exact only for paths whose characters all lie in that plane.
- A callback that throws. If `this.cb(...)` at src/FileListener.js:80 throws, line 82 never runs, so the pending set survives into the next burst. `Fire` has no failure path and always empties the pending set.
- A scanner that changes the entry. `for...of` at src/FileListener.js:60 reads the array live, so a `scan` that pushed to or spliced the `guids` array in place would change the iteration. The model reads the entry once, as a value.
