# BackgroundBLEService — a verified model

This project models the core of the Android foreground service
`BackgroundBLEService`. The service keeps a Bluetooth Low Energy link to a
wearable health band and turns its notification bytes into health records.
It has four parts:

- **Frame decoder** (`processHealthData`, `packetBuffer`). Each chunk is
  trimmed, then filtered to character codes 32..126, then appended to the
  buffer. The leftmost `{` … first `}` frame is cut out repeatedly. A
  `}` before the first `{` drops the text in front of that `{` and ends
  the loop. A buffer longer than 2000 characters is cleared. An exception
  anywhere in the call clears the buffer.
- **Record interpreter** (`parseHealthData`). A frame that does not parse
  yields nothing. A "Please wear your band" message raises an alert and
  yields nothing. A frame without `heartRate` yields nothing. Any other
  frame yields a record with the documented defaults. A pending reading
  is backdated by `cycleCount` five-minute cycles, computed in 64-bit
  arithmetic.
- **Bounded history** (`saveHealthData`). The latest record and the update
  time are stored, and the record is appended to a history that keeps its
  newest 2000 entries.
- **Connection state.** This covers the GATT callbacks, the version check
  and connect guard of `onStartCommand`, `connectToLastDevice`, the
  15-second reconnect timer and `cleanup`.

## Layout

- `text.dfy` (module `Text`) holds Kotlin's `trim` with JVM whitespace,
  the printable filter, and `indexOf`.
- `frame_decoder.dfy` (module `FrameDecoder`) holds `Extract`: one pass
  of the frame loop over a buffer, as a function, with its lemmas.
- `interpreter.dfy` (module `Interpreter`) holds the JSON object as a map
  from keys to values, `optInt`/`optDouble`/`optBoolean`, 32- and
  64-bit wrap-around, and `ParseHealthData`.
- `history.dfy` (module `History`) holds the 2000-entry history. The
  loop that copies the last 2000 entries is the method `TrimHistory`.
- `service.dfy` (module `Service`) holds the class
  `BackgroundBleService`. Its fields are the mutable state: the connection
  flag, the GATT handle, pending reconnect timers, the coroutine scope, the
  shared preferences, the packet buffer, and logs of emitted events and
  GATT requests. Each method is proved against a function on values, for
  example `Run`/`Deliver` for the frame loop and `OnConnected`,
  `AfterConnect`, `Started` and `TimerFired` for the callbacks. The
  `Signal`/`Replay` functions compose those functions, so that
  properties over any sequence of callbacks can be stated.

The environment is a set of parameters:

- the JSON parser is a function `parse` from frame text to an optional
  object;
- the clock reading is `now`;
- whether Bluetooth is enabled is a boolean;
- the result of `connectGatt` is an outcome: a handle, a null handle, or
  an exception;
- whether `requestMtu` started is a boolean;
- the running app's version code is an input;
- the record broadcast in the frame loop that throws (if any) is `fault`;
- which call of a connection-status announcement throws (if any) is a
  `StatusFault`;
- whether a Flutter event sink is attached is a boolean.

## Behaviour as the code has it

The model follows the code as written. In these places the code's
behaviour may be unexpected.

- Each chunk is trimmed **before** it is filtered, so a control character in
  front of a space protects that space from the trim
  (`Text.TrimBeforeFilterKeepsSpace`).
- Trimming is per chunk, so decoding depends on where the chunks split. A
  space at the end of one chunk is lost, but the same space inside one
  chunk is kept (`Text.ChunkEdgeSpaceIsLost`). For example, a reminder
  message split after "Please wear " no longer matches the reminder text.
- All readings of integer fields go through `optInt`. The `heartRate`
  default of 72 applies only when the key is present but does not hold a
  number or a numeric string, because a missing `heartRate` already yields
  nothing. The model, which does not coerce, uses 72 for every value that
  is not an integer.
- A `}` that comes before the first `{` defers every frame in the buffer
  to the next chunk (`FrameDecoder.StrayCloseDefersFrame`).
- The "connected" status is emitted from `onMtuChanged`, not after
  discovery. No "connected" status is emitted when `requestMtu` fails to
  start, because the code then calls `discoverServices` directly.
- When service discovery fails, nothing happens: no retry and no
  reconnect.
- When `connectGatt` returns `null`, no retry is scheduled
  (`Service.ConnectEndsInHandleOrRetry`).
- The reconnect timer checks only `isConnected`, not whether a GATT handle
  is already open, so it can call `connectGatt` a second time
  (`Service.TimerConnectsOnlyWhenDown`). The start command checks both
  (`Service.StartConnectsOnlyWhenIdle`).
- Incoming bytes are decoded whatever the value of `isConnected`.
- The sink call and the broadcast that announce a status change (lines
  61-69 and 83-91) are in no `try`. If either throws, the callback ends
  there. A disconnect then schedules no retry, and an interrupted
  announcement never sends its broadcast
  (`Service.DisconnectRetriesOnlyAfterAnnouncing`,
  `Service.AnnouncementStopsAtFault`).

## Model

| member | source | states |
|---|---|---|
| Text.TrimMargins | android/app/src/main/kotlin/com/example/zyora_final/BackgroundBLEService.kt:306 | `trim` removes only whitespace, at either end, and what it keeps neither starts nor ends with whitespace |
| Text.Trim | android/app/src/main/kotlin/com/example/zyora_final/BackgroundBLEService.kt:306 | Kotlin `trim`: a slice of the chunk that starts after the leading whitespace (with `TrimMargins`) |
| Text.KeepPrintable | android/app/src/main/kotlin/com/example/zyora_final/BackgroundBLEService.kt:306 | the filter keeps exactly the characters of code 32..126 and no others, and is the identity on printable text |
| Text.KeepPrintableConcat | android/app/src/main/kotlin/com/example/zyora_final/BackgroundBLEService.kt:306 | the filter works character by character: one character is kept exactly when printable, and a concatenation is filtered part by part, so order and repeats are kept |
| Text.Sanitize | android/app/src/main/kotlin/com/example/zyora_final/BackgroundBLEService.kt:306 | what is appended for a chunk is printable and drawn from the chunk's characters |
| Text.IndexOfIsFirst | android/app/src/main/kotlin/com/example/zyora_final/BackgroundBLEService.kt:314-315 | `indexOf` is -1 exactly when the character is absent, and otherwise no earlier position holds it |
| Text.IndexOf | android/app/src/main/kotlin/com/example/zyora_final/BackgroundBLEService.kt:314-315 | Kotlin `indexOf`: -1 or an index holding the character (first occurrence by `IndexOfIsFirst`) |
| Text.IndexOfAt | android/app/src/main/kotlin/com/example/zyora_final/BackgroundBLEService.kt:314-315 | an occurrence with no earlier occurrence is the index `indexOf` reports |
| Text.TrimBeforeFilterKeepsSpace | android/app/src/main/kotlin/com/example/zyora_final/BackgroundBLEService.kt:306 | trim runs before the filter: a space behind a control character survives |
| Text.SolidIsSanitized | android/app/src/main/kotlin/com/example/zyora_final/BackgroundBLEService.kt:306 | printable text without whitespace at its ends passes through trim and filter unchanged |
| Text.TrailingSpaceTrimmed | android/app/src/main/kotlin/com/example/zyora_final/BackgroundBLEService.kt:306 | a space at the end of a chunk is removed |
| Text.ChunkEdgeSpaceIsLost | android/app/src/main/kotlin/com/example/zyora_final/BackgroundBLEService.kt:306-309 | the buffer depends on chunking: "a " then "b" appends "ab", while "a b" in one chunk appends "a b" |
| FrameDecoder.HasBothMeansBothBraces | android/app/src/main/kotlin/com/example/zyora_final/BackgroundBLEService.kt:313 | the loop condition holds exactly when the buffer contains both a `{` and a `}` |
| FrameDecoder.Extract | android/app/src/main/kotlin/com/example/zyora_final/BackgroundBLEService.kt:313-349 | the whole frame loop on one buffer: frames with the text skipped before each, the text dropped by the `end <= start` branch, and the rest; specified by the lemmas below |
| FrameDecoder.HasBoth | android/app/src/main/kotlin/com/example/zyora_final/BackgroundBLEService.kt:313 | the loop guard `contains("{") && contains("}")`, as `indexOf` tests (`HasBothMeansBothBraces`) |
| FrameDecoder.Cuts | android/app/src/main/kotlin/com/example/zyora_final/BackgroundBLEService.kt:314-315 | inside the loop, `start` indexes a `{` and `end - 1` a `}`, both within the buffer |
| FrameDecoder.CutsAreFirst | android/app/src/main/kotlin/com/example/zyora_final/BackgroundBLEService.kt:314-315 | no `{` precedes `start` and no `}` precedes `end - 1` |
| FrameDecoder.ExtractHalts | android/app/src/main/kotlin/com/example/zyora_final/BackgroundBLEService.kt:313-349 | with no brace pair the buffer is left alone; with `end <= start` the text before `{` is discarded and the loop ends |
| FrameDecoder.FramesOf | android/app/src/main/kotlin/com/example/zyora_final/BackgroundBLEService.kt:317-318 | the frames handed to the parser are the frames cut, in order |
| FrameDecoder.ExtractFramesWellFormed | android/app/src/main/kotlin/com/example/zyora_final/BackgroundBLEService.kt:317-318 | every frame cut starts with `{`, ends with `}`, holds no other `}`, and the skipped text before it holds neither brace |
| FrameDecoder.ExtractPreservesText | android/app/src/main/kotlin/com/example/zyora_final/BackgroundBLEService.kt:313-350 | skipped text, frames, discarded text and the remainder concatenate back to the buffer: no character is lost or invented |
| FrameDecoder.ExtractTakesFirst | android/app/src/main/kotlin/com/example/zyora_final/BackgroundBLEService.kt:317-340 | when `end > start` the first frame is `substring(start, end)` and the loop continues on `substring(end)` |
| FrameDecoder.ExtractStops | android/app/src/main/kotlin/com/example/zyora_final/BackgroundBLEService.kt:313-350 | the loop ends either with no brace pair left or right after discarding text that holds a `}` but no `{`, leaving a remainder that starts with `{` |
| FrameDecoder.ExtractRestIsSuffix | android/app/src/main/kotlin/com/example/zyora_final/BackgroundBLEService.kt:338-347 | what remains in the buffer is a suffix of it |
| FrameDecoder.NextBufferInvariant | android/app/src/main/kotlin/com/example/zyora_final/BackgroundBLEService.kt:304-355 | an empty chunk leaves the buffer untouched; otherwise the buffer stays within 2000 characters; a printable buffer stays printable |
| FrameDecoder.NextBuffer | android/app/src/main/kotlin/com/example/zyora_final/BackgroundBLEService.kt:304-355 | the buffer after one chunk when nothing throws: unchanged for an empty chunk, else the rest of the loop, cleared above 2000 characters (`NextBufferInvariant`) |
| FrameDecoder.ExtractTakesLeftmostFrame | android/app/src/main/kotlin/com/example/zyora_final/BackgroundBLEService.kt:314-318 | after brace-free noise, the leftmost `{`…`}` is the first frame and the rest is decoded as if it came alone |
| FrameDecoder.StrayCloseDefersFrame | android/app/src/main/kotlin/com/example/zyora_final/BackgroundBLEService.kt:343-349 | a `}` before the first `{` yields no frame: the noise is dropped and the buffer keeps `{` onwards |
| Interpreter.Wrap32 | android/app/src/main/kotlin/com/example/zyora_final/BackgroundBLEService.kt:391 | `optInt` reads a long as its 32-bit truncation, which equals it when it fits |
| Interpreter.Wrap64 | android/app/src/main/kotlin/com/example/zyora_final/BackgroundBLEService.kt:396 | the timestamp is computed modulo 2^64, exactly when it fits in a long |
| Interpreter.OptInt | android/app/src/main/kotlin/com/example/zyora_final/BackgroundBLEService.kt:391-412 | `optInt`: a long is read as its 32-bit truncation, which equals it when it fits; an absent key or a value holding null, a boolean or a nested value gives the fallback |
| Interpreter.OptNumber | android/app/src/main/kotlin/com/example/zyora_final/BackgroundBLEService.kt:406-411 | `optDouble`: a number is passed through; an absent key or a value holding null, a boolean or a nested value gives the fallback |
| Interpreter.OptBool | android/app/src/main/kotlin/com/example/zyora_final/BackgroundBLEService.kt:390 | `optBoolean(key, false)`: true only for a stored `true` |
| Interpreter.CorrectedTimestamp | android/app/src/main/kotlin/com/example/zyora_final/BackgroundBLEService.kt:393-399 | a non-pending reading keeps the clock reading; a pending one is moved back by `cycleCount` × 300000 ms (mod 2^64) |
| Interpreter.Interpret | android/app/src/main/kotlin/com/example/zyora_final/BackgroundBLEService.kt:368-415 | a reminder, a missing `heartRate` and a sample are told apart by exactly the source's tests. Each integer field of a sample is the object's long truncated to 32 bits (unchanged when it fits), or the documented default when the key is absent or holds null, a boolean or a nested value. Each fractional field is the number itself, or its default in those cases. `recovery`, `rhr`, `hrv` are 0, 60, 45 |
| Interpreter.IsWearReminder | android/app/src/main/kotlin/com/example/zyora_final/BackgroundBLEService.kt:368 | the reminder test: a `message` equal to "Please wear your band" (`ReminderYieldsNoRecord`) |
| Interpreter.HeartRateDefaultWhenNotNumeric | android/app/src/main/kotlin/com/example/zyora_final/BackgroundBLEService.kt:386-402 | a `heartRate` present but holding null, a boolean or a nested value still yields a record, with heart rate 72 |
| Interpreter.ParseHealthData | android/app/src/main/kotlin/com/example/zyora_final/BackgroundBLEService.kt:363-421 | a frame that fails to parse yields nothing; otherwise the parsed object is interpreted |
| Interpreter.BackdatingIsExact | android/app/src/main/kotlin/com/example/zyora_final/BackgroundBLEService.kt:393-399 | for realistic clock values a pending reading is stamped exactly `now - cycleCount * 300000` |
| Interpreter.DefaultsFillAbsentFields | android/app/src/main/kotlin/com/example/zyora_final/BackgroundBLEService.kt:401-415 | `{"heartRate":80,"steps":120}` yields 80 and 120 with every other field at its default and `pending` false |
| Interpreter.ReminderYieldsNoRecord | android/app/src/main/kotlin/com/example/zyora_final/BackgroundBLEService.kt:368-383 | the wear-band message yields the reminder and not a record, whatever else the object holds |
| History.TrimHistory | android/app/src/main/kotlin/com/example/zyora_final/BackgroundBLEService.kt:460-468 | the copy loop yields the last `min(n, 2000)` entries of the history, in order |
| History.LastEntries | android/app/src/main/kotlin/com/example/zyora_final/BackgroundBLEService.kt:460-468 | the newest `n` entries, or all when there are fewer (`TrimHistory`, `SavedKeepsNewest`) |
| History.Saved | android/app/src/main/kotlin/com/example/zyora_final/BackgroundBLEService.kt:455-468 | the history after one save: appended, then cut to its newest 2000 (`SavedKeepsNewest`) |
| History.SavedKeepsNewest | android/app/src/main/kotlin/com/example/zyora_final/BackgroundBLEService.kt:455-468 | after a save the history holds at most 2000 entries, ends with the new record, and is a suffix of the old history plus the record |
| History.LastEntriesAppend | android/app/src/main/kotlin/com/example/zyora_final/BackgroundBLEService.kt:457-468 | trimming before the append gives the same history as trimming after it |
| History.SaveAllKeepsNewest | android/app/src/main/kotlin/com/example/zyora_final/BackgroundBLEService.kt:440-470 | saving records one at a time leaves the newest 2000 of old history plus records |
| History.LastEntriesPrepended | android/app/src/main/kotlin/com/example/zyora_final/BackgroundBLEService.kt:457-468 | trimming an earlier history first does not change the newest 2000 after more appends |
| History.OverflowEvictsOldest | android/app/src/main/kotlin/com/example/zyora_final/BackgroundBLEService.kt:460-468 | saving more than 2000 records into an empty history keeps exactly the last 2000, ending with the newest |
| Service.Outcomes | android/app/src/main/kotlin/com/example/zyora_final/BackgroundBLEService.kt:318-319 | each frame is interpreted by `parseHealthData`, in frame order |
| Service.Step | android/app/src/main/kotlin/com/example/zyora_final/BackgroundBLEService.kt:317-341 | the loop body for one interpretation: save, sink, then broadcast (which may throw) for a record; alert and sink for the reminder; nothing otherwise (`DeliverStoresEachRecordOnce`, `DeliverThrowsAtFault`) |
| Service.Deliver | android/app/src/main/kotlin/com/example/zyora_final/BackgroundBLEService.kt:317-341 | the interpretations of one call handled in order, stopping at the first exception (`DeliverStoresEachRecordOnce`, `DeliverThrowsAtFault`) |
| Service.Run | android/app/src/main/kotlin/com/example/zyora_final/BackgroundBLEService.kt:313-350 | the while loop one iteration at a time, as `TakeFrames` runs it (`RunIsExtractThenDeliver`) |
| Service.DeliverStoresEachRecordOnce | android/app/src/main/kotlin/com/example/zyora_final/BackgroundBLEService.kt:317-341 | without an exception every record among the frames is saved once, in order, and the last becomes the latest record |
| Service.DeliverThrowsAtFault | android/app/src/main/kotlin/com/example/zyora_final/BackgroundBLEService.kt:333-360 | the call is aborted exactly when the failing broadcast is one of this call's records |
| Service.RecordsTo | android/app/src/main/kotlin/com/example/zyora_final/BackgroundBLEService.kt:327-336 | the records an event log hands to the sink or broadcasts, in order (`DeliverAnnouncesEachRecordOnce`) |
| Service.DeliverAnnouncesEachRecordOnce | android/app/src/main/kotlin/com/example/zyora_final/BackgroundBLEService.kt:317-341 | without an exception, every record among the frames is broadcast exactly once and in order, and nothing else is broadcast as health data. An attached sink gets the same records, a detached one none. One band reminder is posted per reminder frame |
| Service.DeliverRecordsTo | android/app/src/main/kotlin/com/example/zyora_final/BackgroundBLEService.kt:317-341 | the sink (when attached) and the broadcasts each receive exactly the records of the frames, in order |
| Service.DeliverAlerts | android/app/src/main/kotlin/com/example/zyora_final/BackgroundBLEService.kt:368-383 | one band reminder is posted per reminder frame |
| Service.StepAnnounces | android/app/src/main/kotlin/com/example/zyora_final/BackgroundBLEService.kt:319-340 | one interpretation without an exception: a record goes once to the sink (when attached) and once to a broadcast, and a reminder posts one alert |
| Service.RunIsExtractThenDeliver | android/app/src/main/kotlin/com/example/zyora_final/BackgroundBLEService.kt:313-350 | the loop over the buffer equals cutting all frames first and then handling them in order; without an exception the buffer becomes the remainder |
| Service.DeliverNextFrame | android/app/src/main/kotlin/com/example/zyora_final/BackgroundBLEService.kt:317-341 | handling the frames of a buffer is handling its first frame and then the frames of `substring(end)` |
| Service.ReplayKeepsTimersInScope | android/app/src/main/kotlin/com/example/zyora_final/BackgroundBLEService.kt:517-533 | over any callback sequence, reconnect timers exist only while the scope is alive, and once cancelled it never schedules again |
| Service.ApplyKeepsTimersInScope | android/app/src/main/kotlin/com/example/zyora_final/BackgroundBLEService.kt:517-533 | one callback keeps timers inside a live scope and never revives a cancelled one |
| Service.AfterConnectKeepsScope | android/app/src/main/kotlin/com/example/zyora_final/BackgroundBLEService.kt:284-300 | `connectToLastDevice` keeps the timer invariant and does not move the scope or the flag |
| Service.OnlyStateChangesMoveTheFlag | android/app/src/main/kotlin/com/example/zyora_final/BackgroundBLEService.kt:37-74 | `isConnected` changes only in `onConnectionStateChange` |
| Service.ApplyKeepsFlag | android/app/src/main/kotlin/com/example/zyora_final/BackgroundBLEService.kt:76-165 | any callback other than a state change leaves `isConnected` alone |
| Service.StartedKeepsFlag | android/app/src/main/kotlin/com/example/zyora_final/BackgroundBLEService.kt:130-165 | `onStartCommand` leaves `isConnected` alone |
| Service.AfterConnectKeepsFlag | android/app/src/main/kotlin/com/example/zyora_final/BackgroundBLEService.kt:284-300 | `connectToLastDevice` leaves `isConnected` alone |
| Service.ConnectsOnlyOnStartOrTimer | android/app/src/main/kotlin/com/example/zyora_final/BackgroundBLEService.kt:156-161 | over any callback sequence, `connectGatt` is called at most once per start command or elapsed timer |
| Service.ApplyConnectCalls | android/app/src/main/kotlin/com/example/zyora_final/BackgroundBLEService.kt:37-165 | one callback calls `connectGatt` at most once, and only if it is a start command or timer |
| Service.OnConnectedNeverDials | android/app/src/main/kotlin/com/example/zyora_final/BackgroundBLEService.kt:39-52 | the connected callback never calls `connectGatt` |
| Service.StartedConnectCalls | android/app/src/main/kotlin/com/example/zyora_final/BackgroundBLEService.kt:130-165 | a start command calls `connectGatt` at most once |
| Service.CleanedConnectCalls | android/app/src/main/kotlin/com/example/zyora_final/BackgroundBLEService.kt:527-533 | `cleanup` never calls `connectGatt` |
| Service.AfterConnectDials | android/app/src/main/kotlin/com/example/zyora_final/BackgroundBLEService.kt:284-300 | `connectToLastDevice` records a `connectGatt` call exactly when an address is saved, Bluetooth is on and no exception is raised first, and none otherwise |
| Service.StartConnectsOnlyWhenIdle | android/app/src/main/kotlin/com/example/zyora_final/BackgroundBLEService.kt:156-161 | a start command dials if and only if the instance is current, neither connected nor holding a handle, and a device can be dialled |
| Service.OutdatedInstanceStopsOnce | android/app/src/main/kotlin/com/example/zyora_final/BackgroundBLEService.kt:134-145 | an outdated instance records the new version, stops, cancels timers, drops the handle and is not restarted; the next start with that version is sticky |
| Service.AfterConnectKeepsVersion | android/app/src/main/kotlin/com/example/zyora_final/BackgroundBLEService.kt:284-300 | `connectToLastDevice` does not touch the saved version |
| Service.TimerConnectsOnlyWhenDown | android/app/src/main/kotlin/com/example/zyora_final/BackgroundBLEService.kt:518-524 | an elapsed timer dials if and only if the link is down and a device can be dialled |
| Service.StatusAnnouncedOnce | android/app/src/main/kotlin/com/example/zyora_final/BackgroundBLEService.kt:60-69 | a status change is sent once to the event sink (when attached) and once as a broadcast, the broadcast last |
| Service.Announce | android/app/src/main/kotlin/com/example/zyora_final/BackgroundBLEService.kt:61-69 | a status announcement up to the call that throws (`AnnouncementStopsAtFault`) |
| Service.AnnouncementStopsAtFault | android/app/src/main/kotlin/com/example/zyora_final/BackgroundBLEService.kt:61-69 | an announcement emits a prefix of the full status events, completes exactly when no called step throws, and if interrupted sends no broadcast |
| Service.OnConnected | android/app/src/main/kotlin/com/example/zyora_final/BackgroundBLEService.kt:39-52 | the connected branch on the link: flag set, MTU 512 requested, discovery when the request did not start (`OnConnectedNeverDials`, `OnlyStateChangesMoveTheFlag`) |
| Service.OnDisconnected | android/app/src/main/kotlin/com/example/zyora_final/BackgroundBLEService.kt:53-72 | the disconnected branch on the link: flag cleared, a retry only after a completed announcement (`DisconnectRetriesOnlyAfterAnnouncing`) |
| Service.DisconnectRetriesOnlyAfterAnnouncing | android/app/src/main/kotlin/com/example/zyora_final/BackgroundBLEService.kt:53-72 | a disconnect clears the flag and adds a timer exactly when the scope is alive and its announcement did not throw |
| Service.OnMtu | android/app/src/main/kotlin/com/example/zyora_final/BackgroundBLEService.kt:80 | discovery is requested whatever the MTU status |
| Service.OnDiscovered | android/app/src/main/kotlin/com/example/zyora_final/BackgroundBLEService.kt:94-110 | notifications and the CCCD write only on success with the characteristic found, else nothing |
| Service.DiscoverySubscribesOnlyOnSuccess | android/app/src/main/kotlin/com/example/zyora_final/BackgroundBLEService.kt:94-110 | the link changes exactly on success with the characteristic found, and then only by the notification switch followed by the descriptor write |
| Service.AfterConnect | android/app/src/main/kotlin/com/example/zyora_final/BackgroundBLEService.kt:284-300 | `connectToLastDevice` on the link (`AfterConnectDials`, `ConnectEndsInHandleOrRetry`) |
| Service.Started | android/app/src/main/kotlin/com/example/zyora_final/BackgroundBLEService.kt:130-165 | `onStartCommand` on the link, with its return mode (`StartConnectsOnlyWhenIdle`, `OutdatedInstanceStopsOnce`) |
| Service.IsOutdated | android/app/src/main/kotlin/com/example/zyora_final/BackgroundBLEService.kt:137 | the version test: a stored version (not -1) that differs from the running build (`OutdatedInstanceStopsOnce`) |
| Service.Rescheduled | android/app/src/main/kotlin/com/example/zyora_final/BackgroundBLEService.kt:517-525 | `attemptReconnect` on the link: one more pending timer when the scope is alive, none otherwise (`ReplayKeepsTimersInScope`) |
| Service.Destroyed | android/app/src/main/kotlin/com/example/zyora_final/BackgroundBLEService.kt:213-221 | `onDestroy` on the link: marked not running, then `cleanup` (`ReplayKeepsTimersInScope`, `ConnectsOnlyOnStartOrTimer`) |
| Service.TimerFired | android/app/src/main/kotlin/com/example/zyora_final/BackgroundBLEService.kt:518-524 | one timer fires and connects only when `!isConnected` (`TimerConnectsOnlyWhenDown`) |
| Service.Cleaned | android/app/src/main/kotlin/com/example/zyora_final/BackgroundBLEService.kt:527-533 | `cleanup` on the link: scope and timers cancelled, an open handle disconnected, closed and dropped (`CleanedConnectCalls`, `ReplayKeepsTimersInScope`) |
| Service.ConnectEndsInHandleOrRetry | android/app/src/main/kotlin/com/example/zyora_final/BackgroundBLEService.kt:284-300 | a connect attempt opens a handle, schedules a retry, or (null handle) neither; a retry is scheduled exactly when no address, Bluetooth off, or an exception |
| Service.BackgroundBleService.constructor | android/app/src/main/kotlin/com/example/zyora_final/BackgroundBLEService.kt:118-128 | a new instance is disconnected with no handle, a live scope, no timers and an empty buffer, over the stored preferences |
| Service.BackgroundBleService.SetEventSink | android/app/src/main/kotlin/com/example/zyora_final/MainActivity.kt:90-101 | attaching or detaching the Flutter sink changes only that |
| Service.BackgroundBleService.SaveDeviceAddress | android/app/src/main/kotlin/com/example/zyora_final/MainActivity.kt:130-133 | the saved address changes and nothing else |
| Service.BackgroundBleService.SaveHealthData | android/app/src/main/kotlin/com/example/zyora_final/BackgroundBLEService.kt:440-476 | the latest record and update time are the new ones and the history is `Saved(old history, r)` |
| Service.BackgroundBleService.HandleOutcome | android/app/src/main/kotlin/com/example/zyora_final/BackgroundBLEService.kt:319-340 | one frame's interpretation is handled as `Step` says: save, sink, broadcast, or reminder |
| Service.BackgroundBleService.ProcessHealthData | android/app/src/main/kotlin/com/example/zyora_final/BackgroundBLEService.kt:304-361 | an empty chunk changes nothing; otherwise the outputs are those of delivering every frame cut from buffer plus chunk, and the buffer is the remainder, cleared on overflow or exception |
| Service.BackgroundBleService.TakeFrames | android/app/src/main/kotlin/com/example/zyora_final/BackgroundBLEService.kt:313-350 | the frame loop computes `Run` on the old buffer |
| Service.BackgroundBleService.AttemptReconnect | android/app/src/main/kotlin/com/example/zyora_final/BackgroundBLEService.kt:517-525 | one timer is scheduled when the scope is alive, none otherwise |
| Service.BackgroundBleService.ConnectToLastDevice | android/app/src/main/kotlin/com/example/zyora_final/BackgroundBLEService.kt:284-300 | the link becomes `AfterConnect` of the old one |
| Service.BackgroundBleService.OnConnectionStateChange | android/app/src/main/kotlin/com/example/zyora_final/BackgroundBLEService.kt:37-74 | connected: flag set, buffer cleared, MTU 512 requested; disconnected: flag cleared, buffer cleared, status announced, retry scheduled unless the announcement threw; other states: nothing |
| Service.BackgroundBleService.LinkUp | android/app/src/main/kotlin/com/example/zyora_final/BackgroundBLEService.kt:39-52 | the connected branch as `OnConnected` |
| Service.BackgroundBleService.LinkDown | android/app/src/main/kotlin/com/example/zyora_final/BackgroundBLEService.kt:53-72 | the disconnected branch as `OnDisconnected`: flag and buffer cleared, the "disconnected" status announced up to the call that throws, and a retry only when it completed |
| Service.BackgroundBleService.AnnounceStatus | android/app/src/main/kotlin/com/example/zyora_final/BackgroundBLEService.kt:61-69 | the sink call (when attached) and then the broadcast, stopping at the call that throws, as `Announce` says |
| Service.BackgroundBleService.OnMtuChanged | android/app/src/main/kotlin/com/example/zyora_final/BackgroundBLEService.kt:76-92 | discovery requested, then the "connected" status announced up to the call that throws, whatever the MTU status |
| Service.BackgroundBleService.OnServicesDiscovered | android/app/src/main/kotlin/com/example/zyora_final/BackgroundBLEService.kt:94-110 | subscription requested only on success with the characteristic present |
| Service.BackgroundBleService.Cleanup | android/app/src/main/kotlin/com/example/zyora_final/BackgroundBLEService.kt:527-533 | scope cancelled with its timers, handle disconnected, closed and dropped |
| Service.BackgroundBleService.OnStartCommand | android/app/src/main/kotlin/com/example/zyora_final/BackgroundBLEService.kt:130-165 | new state and return mode are `Started` of the old state |
| Service.BackgroundBleService.Retire | android/app/src/main/kotlin/com/example/zyora_final/BackgroundBLEService.kt:134-145 | the outdated branch: version recorded, marked not running and stopped, cleaned up |
| Service.BackgroundBleService.FireReconnectTimer | android/app/src/main/kotlin/com/example/zyora_final/BackgroundBLEService.kt:518-524 | one pending timer fires as `TimerFired` |
| Service.BackgroundBleService.OnDestroy | android/app/src/main/kotlin/com/example/zyora_final/BackgroundBLEService.kt:213-221 | marked not running, then cleaned up |

## Left out

- `String(data)`: UTF-8 decoding of the byte array is not modelled. A
  chunk is taken as already-decoded text.
- JSON: the parser, the map-to-JSON serialisation used for broadcasts and
  storage, and `optString` are not modelled. Neither are the coercions:
  `optInt` of a double or a numeric string, `optBoolean` of the strings
  "true"/"false", and `optDouble` of a numeric string such as "6.5". The
  parser is a parameter. The model reads integers, passes numbers through
  for the two fractional fields, and reads booleans. For any other value
  present, including a string the code would coerce, it gives the
  fallback.
- Interpreter.Interpret: `sleep` and `bodyTemperature` are passed through
  as values. The double conversion of an integer field is not modelled.
  Without coercions, an integer field holding a double or a numeric string
  gets its default, where the code would use the coerced value.
- Service.BackgroundBleService.SaveHealthData: the clock reading of
  `saveHealthData` (line 443) is taken as the same `now` as the one
  `parseHealthData` used. The `catch` for a malformed stored history is not modelled,
  because the history is held as a sequence.
- Service.BackgroundBleService.ProcessHealthData: `parseHealthData` reads
  the clock once per frame (line 394). The model uses one `now` for every
  frame of a call, so frames of one chunk are stamped alike.
- Exceptions from `showWearBandNotification` (line 370) are not modelled.
  In the code, `parseHealthData`'s own `catch` (lines 417-420) would catch
  one, and the frame would then yield nothing. The model always posts the
  notification as an event in the log. The sink calls in the frame loop
  (line 327, in the `try` of lines 326-331) and in `parseHealthData`
  (line 374, in the `try` of lines 373-380) sit in `try` blocks that
  swallow their exceptions, so they cannot throw in the model.
- `getService`/`getCharacteristic`/`getDescriptor` lookups become one
  boolean, "characteristic found". A missing CCCD descriptor is not
  distinguished.
- Coroutines: the 15-second `delay` and the thread interleaving of
  callbacks and timers are not modelled. Pending timers are a counter, and
  each timer firing is an explicit call.
- Foreground notification, notification channels, wake lock,
  `startForeground`, `onTaskRemoved`'s alarm restart, `onBind` and
  `initializeBluetooth`: Android platform plumbing with no effect on the
  modelled state.
- `getAppVersionCode` is an input. `getDefaultHealthData` is never called
  by the core.
- The "Event channel connected" log event that `onListen` sends is not
  modelled.
- StepCounterService, BootCompleteReceiver, and MainActivity's method
  channel are not part of this model.
