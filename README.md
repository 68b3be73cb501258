# Cockpit Watch, modelled in Dafny

The Cockpit Watch is a browser clock with four faces (clock, stopwatch,
timer, alarm), a configuration panel persisted in local storage, an alert
engine that plays aviation-style tone and voice alerts, and a service worker
that keeps a table of scheduled alarms and shows a notification when one is
due. This project models the page's state machine (`script.js`) and the
worker's alarm table (`sw.js`) and proves what they promise.

The modules follow the program:

- `JsValues` (`js_values.dfy`): the JavaScript conversions the watch relies
  on. It covers `parseInt`, `Number`, `||` defaults on numbers,
  `padStart(2, '0')`, `String(n)` and `split(':')`. A `Num` is an integer or
  NaN, and every comparison with NaN is false.
- `TimeFormat` (`time_format.dfy`): the arithmetic behind `HH:MM:SS`, the
  12-hour face and the parsing of `HH:MM` and `HH:MM:SS` inputs.
- `Settings` (`settings.dfy`): the record `saveSettings` stores,
  `loadSettings`' default filling, and the upload checks of
  `handleCustomAudioSelection`.
- `Alerts` (`alerts.dfy`): the sound catalog, and `playAlarm`, `stopAlarm`
  and `playCustomAlarm` as a class `AlertEngine`. Its fields are the bag
  `alarmTimeouts`, the host's pending timeouts and the id counter.
- `Cockpit` (`watch.dfy`): the page itself, in two forms.
  - Each handler is a pure function `On...` from the page's variables
    (`State`) to an `Outcome`: the new state, the `playAlarm` calls made in
    order, and the messages posted to the worker.
  - The class `Watch` holds the same variables as fields. Each of its
    methods is proved to change them exactly as its `On...` function says.
  - `Run` plays a sequence of events. The one-shot properties (each alert
    plays at most once per arming) are proved over any run.
- `Background` (`background.dfy`): the worker's `scheduledAlarms` Map as a
  class `AlarmTable`. Its fields are the keys in insertion order and the
  entries. It has the message handler and the two-pass
  `checkScheduledAlarms`, whose loops are proved against functions that
  describe the passes.

The clock, the DOM, audio, speech and the worker's message channel are not
modelled as code. They become parameters instead:

- a `WallTime` for `new Date()`
- the panel's values as a `Form`
- `audioAvailable` and `speechAvailable` for the Web Audio and speech
  checks
- the reader's result `data` for a `FileReader`
- `hasPort` for `event.ports[0]`
- `nowMs` and `nowMinutes` for the worker's clock

## Model

| member | source | states |
|---|---|---|
| JsValues.OrInt | script.js:450-451 | `n \|\| d` on a number: a non-zero integer is kept; NaN and 0 give the default |
| JsValues.DigitValue | script.js:450 | a digit character denotes a value below 10 |
| JsValues.DigitChar | script.js:290 | the digit character for d < 10 is a digit whose value is d (inverse of DigitValue) |
| JsValues.Decimal | script.js:290 | `String(n)` is a non-empty digit string, one character exactly for n < 10, two exactly for 10 ≤ n < 100 |
| JsValues.DecimalRoundTrip | script.js:290 | reading the digits of `String(n)` back gives n |
| JsValues.Pad2 | script.js:290 | `padStart(2, '0')` of n ≥ 0 is at least two digits whose value is n, and exactly two below 100 |
| JsValues.PadStart2 | sw.js:169 | padding any integer gives at least two characters, and agrees with Pad2 on non-negative numbers |
| JsValues.Pad2Injective | script.js:689-696 | two equal padded fields come from equal numbers |
| JsValues.ToNumber | script.js:500 | `Number(s)` is an integer exactly when s is all digits (the empty string gives 0), never negative |
| JsValues.TrimStart | script.js:450 | the leading white space is removed: the result is a suffix of the input that does not start with a space |
| JsValues.DigitPrefix | script.js:450 | the longest all-digit prefix: a prefix of the input made of digits and followed by a non-digit or the end |
| JsValues.ParseInt | script.js:450-451 | `parseInt` is NaN exactly when no digit follows the optional white space and sign |
| JsValues.Unsigned | script.js:450 | the unsigned text is a suffix of the input; it differs from the input exactly when the input starts with `+` or `-`, and then it is the input without that one character |
| JsValues.DigitPrefixOfDigits | script.js:450 | a string of digits is its own longest digit prefix |
| JsValues.ParseIntDecimal | script.js:450-451 | `parseInt(String(n)) === n` for every n ≥ 0 |
| JsValues.ParseIntNoDigit | script.js:450-451 | a field with no digit at all parses to NaN |
| JsValues.Split | script.js:500 | `split(':')` always yields at least one part |
| JsValues.SplitJoin | script.js:500 | split parts hold no separator, and joining them with the separator gives the string back |
| JsValues.SplitAfter | script.js:545 | splitting `a:b`, with no separator in a, gives a followed by the parts of b |
| JsValues.SplitFree | script.js:545 | a string without the separator splits into itself alone |
| TimeFormat.JsRem | script.js:304-306 | JavaScript `%` keeps the sign of the dividend: in [0, b) for a ≥ 0 and in (-b, 0] for a < 0 |
| TimeFormat.SplitSeconds | script.js:304-308 | for t ≥ 0 the display fields are hours ≥ 0, minutes and seconds below 60, recomposing to t; for t < 0 they are non-positive |
| TimeFormat.SplitSecondsOfHms | script.js:304-308 | splitting h·3600 + m·60 + s gives back (h, m, s): the inverse of composing |
| TimeFormat.Hour12 | script.js:286-288 | `hours % 12 \|\| 12` is always in 1..12, and with the PM marker it determines the 24-hour hour |
| TimeFormat.Hour12Injective | script.js:286-298 | two hours with the same 12-hour face and the same AM/PM marker are equal |
| TimeFormat.ClockText | script.js:281-301 | the 24-hour face starts with the `HH:MM` alarm key (and is exactly that without seconds); the 12-hour face ends in the right AM/PM marker |
| TimeFormat.Pad2Free | script.js:500 | a padded field holds no `:` and `Number` reads it back as its value |
| TimeFormat.AlarmKeyMinutes | script.js:499-501 | the `HH:MM` alarm string is sent to the worker as minute HH·60 + MM |
| TimeFormat.AlarmKeyInjective | script.js:689-696 | two `HH:MM` keys are equal exactly when their hours and minutes are |
| TimeFormat.StopwatchAlarmSecondsOfKey | script.js:545-546 | a stopwatch alarm `HH:MM:SS` is h·3600 + m·60 + s seconds |
| TimeFormat.StopwatchAlarmSecondsOfShortKey | script.js:545-546 | a stopwatch alarm `HH:MM` has no seconds part, which counts as 0 |
| TimeFormat.CounterTextRoundTrip | script.js:303-308 | the stopwatch display of t, read back as a stopwatch alarm time, is t again |
| Settings.OrText | script.js:972-983 | `v \|\| d` on a string: a present non-empty value is kept, otherwise the default |
| Settings.LoadForm | script.js:972-983 | the loaded panel never has an empty text field: every missing or empty one gets its default |
| Settings.LoadApplied | script.js:985-1002 | the loaded warning time is never 0 (it defaults to 10); the stopwatch alarm is set exactly when a time is stored; custom audio is taken only with both data and name |
| Settings.LoadSaveForm | script.js:945-983 | saving and then loading restores the panel field for field when no text field was empty |
| Settings.LoadNoKeys | script.js:972-994 | a record with no keys loads the panel's defaults and the default variables |
| Settings.LoadSaveApplied | script.js:945-1002 | saving and then loading restores the alarm, the switches, the warning time and the stopwatch alarm's seconds from the panel, and the custom audio exactly when both parts were present |
| Settings.CheckUpload | script.js:563-578 | a file is accepted exactly when it exists, has one of the five audio types and is at most 10 MB; each rejection names the first failed check |
| Alerts.ProfileOrBeep | script.js:733 | a catalogued sound gives its own profile; any other name gives `beep` |
| Alerts.SoundType | script.js:722 | a given custom sound wins; otherwise the clock alarm plays the alarm sound select's value and every other kind plays `beep` |
| Alerts.Repeats | script.js:822-904 | the loop `for (i = 1; i < count; i++)` schedules count − 1 timeouts (none when count ≤ 1) |
| Alerts.RepeatsAt | script.js:822-904 | the k-th repeat runs after k + 1 intervals |
| Alerts.RepeatsInsideWindow | script.js:817-904 | every repeat runs strictly inside the 30 s window, in increasing order of delay |
| Alerts.TonePlanAutoStop | script.js:906-910 | every tone alert ends with exactly one auto-stop at 30 s, and everything else it schedules is due before that |
| Alerts.Ids | script.js:903 | n consecutive `setTimeout` calls return exactly the ids first … first + n − 1 |
| Alerts.Table | script.js:823-910 | the host's table after a plan is scheduled holds exactly the new ids, each mapped to its timeout |
| Alerts.TableSnoc | script.js:823-910 | scheduling one more timeout adds exactly its id |
| Alerts.IdsAt | script.js:903 | the k-th id handed out is first + k |
| Alerts.ScheduleOwned | script.js:903-910 | scheduling a plan and recording every id keeps every pending timeout in the bag |
| Alerts.PushOwned | script.js:903 | one `alarmTimeouts.push(setTimeout(...))` keeps every pending timeout in the bag |
| Alerts.AlertEngine.constructor | script.js:11 | the engine starts with an empty bag and nothing pending |
| Alerts.AlertEngine.Push | script.js:903 | the bag grows by the fresh id, and the host gains exactly that timeout |
| Alerts.AlertEngine.PushAll | script.js:822-910 | the bag grows by the plan's fresh ids in order, and the host gains exactly the plan |
| Alerts.AlertEngine.StopAlarm | script.js:705-719 | `stopAlarm` leaves nothing of the alert pending and empties the bag |
| Alerts.AlertEngine.PlayAlarm | script.js:721-916 | the previous alert is cancelled first. Then either the custom audio plays with only its auto-stop pending, or without audio a blocking alert shows and nothing is pending, or the tone plays and exactly the tone plan (voices, repeats, auto-stop) is pending and recorded. Corrected (see Findings): the voice ids are recorded too |
| Alerts.AlertEngine.PlayTones | script.js:764-910 | the tone branch schedules and records exactly the profile's plan and plays its frequency once. Corrected (see Findings): the voice ids are recorded too |
| Alerts.AlertEngine.PlayCustomAlarm | script.js:616-654 | the uploaded audio plays, and its 30 s auto-stop is pending and recorded |
| Alerts.AlertEngine.OnCustomMetadata | script.js:636-648 | once the audio's duration is known, its repeats are scheduled and recorded; nothing plays yet |
| Alerts.AlertEngine.OnCustomPlayFailed | script.js:625-630 | a failed custom play falls back to one `beep` tone and schedules nothing |
| Alerts.AlertEngine.Fire | script.js:801-910 | a due timeout runs once: a repeat plays its tone and re-schedules its voices, a voice speaks, a custom repeat replays, and the auto-stop empties everything. Corrected (see Findings): the repeat's voice ids are recorded too |
| Alerts.StopBooks | script.js:705-708 | on plain values, `stopAlarm` keeps exactly the pending timeouts that were never recorded, each unchanged |
| Alerts.ScheduledSnoc | script.js:801-910 | one more `setTimeout` extends a schedule by its last timeout |
| Alerts.ScheduleBooks | script.js:801-910 | scheduling a plan hands out fresh ids, records them only when asked, and adds exactly the plan to the host |
| Alerts.AsWrittenStopLeavesSpeech | script.js:800-814 | as written, stopping a speaking alert leaves its three voice timeouts pending (see Findings) |
| Alerts.AsWrittenRepeatLeavesSpeech | script.js:885-899 | as written, stopping a speaking alert just after a repeat fires leaves that repeat's three voice timeouts pending, even when everything earlier was recorded (see Findings) |
| Alerts.StopLeavesUnrecorded | script.js:705-708 | timeouts scheduled without recording their ids survive `stopAlarm` |
| Alerts.DropScheduled | script.js:705-708 | clearing the ids of a later schedule leaves the earlier pending table as it was |
| Background.Apply | sw.js:103-133 | SCHEDULE_ALARM with `enabled` sets the id to a fresh, untriggered entry; when disabled it deletes the id; CANCEL_ALARM deletes it; other messages change nothing |
| Background.ReplyTo | sw.js:119-131 | success is answered exactly when a port was given and the message was an alarm message |
| Background.CancelOnlyThat | sw.js:125-133 | cancelling removes that id and nothing else, and cancelling an absent id changes nothing |
| Background.ScheduleThenCancel | sw.js:103-133 | schedule then cancel forgets the id, whatever was there before |
| Background.RescheduleOverwrites | sw.js:106-112 | scheduling twice keeps only the latest request, re-armed |
| Background.NoteOf | sw.js:166-190 | the notification carries the alarm's id and never an empty sound (`sound \|\| 'beep'`) |
| Background.FireAt | sw.js:163-192 | one iteration of the first pass never adds or removes a key |
| Background.FirstSweep | sw.js:162-193 | the first pass never adds or removes a key |
| Background.FirstSweepStep | sw.js:162-193 | each further iteration visits the next id in insertion order |
| Background.FirstSweepVisits | sw.js:162-163 | each id the pass visits is still in the table |
| Background.MarkEntry | sw.js:163-165 | an entry is marked triggered exactly when it was already, or is due now; nothing else about it changes |
| Background.Mark | sw.js:162-193 | marking keeps the keys |
| Background.MarkAmong | sw.js:162-193 | marking part of the table keeps the keys |
| Background.MarkAmongStep | sw.js:163-165 | visiting one more id marks it exactly when it is due |
| Background.FirstSweepMarks | sw.js:162-193 | after n iterations, exactly the due entries among the first n ids are marked |
| Background.FirstSweepNotes | sw.js:162-193 | an id gets a notification in the first pass exactly when it was visited and due |
| Background.FirstSweepQuiet | sw.js:162-193 | when nothing is due, the pass changes nothing and shows nothing |
| Background.MarkedQuiet | sw.js:163-165 | after the first pass, nothing is still due in the same minute |
| Background.SecondSweepSilent | sw.js:156-205 | a second check in the same minute shows no notification: each alarm fires once |
| Background.Evict | sw.js:196-201 | the eviction keeps exactly the entries scheduled at or after the cutoff, each unchanged |
| Background.Kept | sw.js:196-201 | the surviving keys are exactly the listed ones still in the table and not stale |
| Background.EvictionStep | sw.js:197-200 | each iteration of the eviction visits the next key |
| Background.EvictAmong | sw.js:196-201 | after visiting some keys, exactly the stale visited entries are gone |
| Background.CoherentListed | sw.js:137 | a well-formed table lists each key once, each with an entry |
| Background.OrderStep | sw.js:197-200 | deleting during iteration keeps the surviving keys in order ahead of the unvisited ones |
| Background.EntriesStep | sw.js:197-200 | one iteration removes the visited entry exactly when it is stale |
| Background.EvictionNext | sw.js:197-200 | one iteration from the state after n − 1 keys reaches the state after n keys |
| Background.EvictionSteps | sw.js:196-201 | after n iterations, the survivors among the first n keys come first in order, and exactly the stale visited entries are gone |
| Background.EvictionEnds | sw.js:196-201 | the whole eviction keeps the surviving keys in insertion order and drops exactly the stale entries |
| Background.EvictionCoherent | sw.js:196-201 | eviction leaves a well-formed table |
| Background.DeleteCoherent | sw.js:125-128 | `delete` leaves a well-formed table |
| Background.SameKeysCoherent | sw.js:163-165 | updating entries in place leaves a well-formed table |
| Background.EvictionReaches | sw.js:197-200 | each key the eviction visits is still in the table when it is visited, even while keys are being deleted |
| Background.FirstSweepEnds | sw.js:162-193 | the whole first pass marks exactly the due entries |
| Background.NotificationShowsAlarmKey | sw.js:169 | the minute the page sends for `HH:MM` comes back as the same `HH:MM` in the notification |
| Background.NotificationClockRange | sw.js:169 | a minute of the day is shown as a valid `HH:MM` |
| Background.DistinctCons | sw.js:137 | a key list starting with x is free of repetitions exactly when x is new and the rest is free of repetitions |
| Background.Without | sw.js:125-128 | deleting removes exactly that key from the order |
| Background.WithoutDistinct | sw.js:125-128 | deleting keeps the key list free of repetitions |
| Background.WithoutMiddle | sw.js:199 | deleting a key that occurs once joins the keys on either side of it |
| Background.WithoutAbsent | sw.js:127 | deleting an absent key changes nothing |
| Background.DistinctMiddle | sw.js:137 | in a list without repetitions, the middle key occurs on neither side |
| Background.DistinctSplit | sw.js:137 | in a list without repetitions, the key at i occurs neither before nor after i |
| Background.DistinctSnoc | sw.js:106 | `set` of a new key keeps the key list free of repetitions |
| Background.KeptDistinct | sw.js:196-201 | the surviving keys are free of repetitions |
| Background.DistinctPrefix | sw.js:137 | a prefix of a list without repetitions is free of repetitions |
| Background.AlarmTable.constructor | sw.js:137 | `new Map()` is a well-formed empty table |
| Background.AlarmTable.Set | sw.js:106-111 | `set` updates the entry; a new key goes last and an existing one keeps its place; the table stays well-formed |
| Background.AlarmTable.Delete | sw.js:125-128 | `delete` removes the entry and its key from the order |
| Background.AlarmTable.HandleMessage | sw.js:103-133 | the handler changes the table exactly as Apply says, keeps it well-formed and answers as ReplyTo says. An enabled alarm with a new id goes to the end of the insertion order and a known id keeps its place; a disable or cancel removes the id from the order; any other message leaves the order alone |
| Background.AlarmTable.CheckScheduledAlarms | sw.js:156-205 | shows exactly the notifications of the first pass, and leaves the table marked and with exactly the stale entries evicted, keys in insertion order |
| Background.AlarmTable.FirePass | sw.js:162-193 | the first loop reaches the same table and notifications as the first pass, keeping the key order |
| Background.AlarmTable.FireIfDue | sw.js:163-191 | one callback: a due entry is notified and marked, others are left alone |
| Background.AlarmTable.EvictPass | sw.js:196-201 | the second loop, which deletes while iterating, reaches the state the eviction describes and keeps the table well-formed |
| Cockpit.DisplayTimerKeepsTime | script.js:319-340 | `displayTimer` never changes the timer's time |
| Cockpit.Raised | script.js:721 | the count of alerts of a kind is at most the number of alerts |
| Cockpit.RaisedConcat | script.js:721 | alert counts add up over consecutive steps |
| Cockpit.RaisedOne | script.js:721 | one alert counts once for its own kind and zero for the others |
| Cockpit.RaisedAppend | script.js:721 | appending an alert adds one to its kind's count only |
| Cockpit.SwitchModeStopsCounters | script.js:223-241 | `switchMode` stops both counters, keeps both times and posts nothing; it raises an alert exactly when the new face is the stopwatch and its alarm is due |
| Cockpit.StartTimerGuard | script.js:425-435 | a timer at 0 or below does not start; a positive one starts with its warning re-armed and its time kept |
| Cockpit.SetTimerDecimal | script.js:449-454 | decimal minutes and seconds set the timer to 60·minutes + seconds |
| Cockpit.SetTimerNonNumeric | script.js:449-454 | a minutes or seconds field with no digit counts as 0; the other field, if decimal, counts at its value |
| Cockpit.ResetStopwatchRearms | script.js:418-423 | reset leaves the stopwatch stopped at 0 with its alarm re-armed, unless that alarm is due at 0, in which case it plays at once; an alert plays exactly then |
| Cockpit.ResetTimerQuiet | script.js:443-447 | reset leaves the timer stopped at the panel's time with its warning re-armed, and plays nothing |
| Cockpit.StopwatchSecondAddsOne | script.js:405-411 | each stopwatch tick adds exactly one second and keeps it running |
| Cockpit.TimerSecondNeverNegative | script.js:425-435 | a running timer's tick never goes below 0; the timer stops, and the timer alert plays, exactly on the tick that reaches 0 |
| Cockpit.DisplayStopwatchAccounts | script.js:311-316 | `displayStopwatch` plays only the stopwatch alarm, at most once per arming, and leaves the timer alone |
| Cockpit.DisplayTimerAccounts | script.js:327-339 | `displayTimer` plays the warning at most once per arming and the timer alert only as it stops the timer; it never leaves a running timer without time |
| Cockpit.UpdateDisplayAccounts | script.js:260-279 | redrawing the face keeps every one-shot account and never plays the clock alarm |
| Cockpit.ClockSecondAccounts | script.js:253-258 | a clock tick keeps every one-shot account |
| Cockpit.SwitchModeAccounts | script.js:223-241 | a mode button keeps every one-shot account |
| Cockpit.FormatAccounts | script.js:530-534 | the 24-hour switch keeps every one-shot account |
| Cockpit.SecondsAccounts | script.js:536-540 | the seconds switch keeps every one-shot account |
| Cockpit.SetAccounts | script.js:394-403 | the set button keeps every one-shot account |
| Cockpit.StopwatchSecondAccounts | script.js:405-411 | a stopwatch tick keeps every one-shot account |
| Cockpit.TimerSecondAccounts | script.js:425-435 | a timer tick keeps every one-shot account |
| Cockpit.StartStopAccounts | script.js:362-380 | start/stop never plays the stopwatch alarm and never starts a timer without time |
| Cockpit.ResetAccounts | script.js:382-392 | reset never plays the timer alert and never starts the timer |
| Cockpit.PanelAccounts | script.js:189-205 | the panel's inputs play nothing and leave the counters and their one-shot flags alone |
| Cockpit.StorageAccounts | script.js:563-589 | an uploaded file and the page load play nothing and leave the counters and their one-shot flags alone |
| Cockpit.StepAccounts | script.js:147-258 | every event keeps the stopwatch alarm's account unless it is reset, the timer alert's unless it is start/stop, the warning's unless it is either, and the timer's soundness always |
| Cockpit.RunKeepsTimerSound | script.js:425-435 | over any run, the timer runs only with time left |
| Cockpit.StopwatchAlarmOnce | script.js:311-316 | over any run without reset, the stopwatch alarm plays at most once, and not at all if it had already played |
| Cockpit.TimerAlertOnce | script.js:333-339 | over any run without start/stop, the timer alert plays at most once, and only if the timer was running |
| Cockpit.TimerWarningOnce | script.js:327-331 | over any run without start/stop and reset, the warning plays at most once, and not at all if it had already played |
| Cockpit.AlarmDueAtKey | script.js:685-702 | with the alarm set to `HH:MM`, it is due exactly at that hour and minute, on second 0, while enabled |
| Cockpit.AlarmTimeReachesWorker | script.js:491-503 | setting `HH:MM` schedules minute HH·60 + MM under `main-alarm`; when enabled, the worker's entry is due in that minute and its notification shows the same `HH:MM` |
| Cockpit.AlarmOffCancels | script.js:505-520 | switching the alarm off cancels the worker's entry |
| Cockpit.LoadAfterSave | script.js:945-1013 | saving and then loading gives the panel back and sets the alarm, the switches and the stopwatch alarm from it |
| Cockpit.AudioChosenOnlyIfAccepted | script.js:563-589 | a rejected file changes nothing; an accepted one replaces the custom audio and is saved |
| Cockpit.Watch.constructor | script.js:2-18 | the page's variables start at their declared values |
| Cockpit.Watch.DisplayStopwatch | script.js:303-317 | the fields change as OnDisplayStopwatch says, and the alerts are its alerts |
| Cockpit.Watch.DisplayTimer | script.js:319-340 | the fields change as OnDisplayTimer says, and the alerts are its alerts |
| Cockpit.Watch.UpdateDisplay | script.js:260-279 | the fields change as OnUpdateDisplay says, and the alerts are its alerts |
| Cockpit.Watch.ClockSecond | script.js:253-258 | the clock tick has exactly the effect of OnClockSecond |
| Cockpit.Watch.CheckAlarm | script.js:685-702 | the alarm plays exactly when enabled, set, on the same `HH:MM` and at second 0 |
| Cockpit.Watch.SwitchMode | script.js:223-241 | the fields change as OnSwitchMode says |
| Cockpit.Watch.EnterMode | script.js:223-227 | the new mode is set and both counters are stopped |
| Cockpit.Watch.StartStopwatch | script.js:405-411 | only the stopwatch's running flag is set |
| Cockpit.Watch.StopStopwatch | script.js:413-416 | only the stopwatch's running flag is cleared |
| Cockpit.Watch.ResetStopwatch | script.js:418-423 | the fields change as OnResetStopwatch says |
| Cockpit.Watch.StopwatchSecond | script.js:405-411 | the tick has exactly the effect of OnStopwatchSecond |
| Cockpit.Watch.StartTimer | script.js:425-435 | the fields change as OnStartTimer says |
| Cockpit.Watch.StopTimer | script.js:437-441 | only the timer's running flag is cleared |
| Cockpit.Watch.SetTimer | script.js:449-454 | the fields change as OnSetTimer says |
| Cockpit.Watch.ShowTimer | script.js:452-453 | the timer takes the given time and the face is drawn as OnDisplayTimer says |
| Cockpit.Watch.ResetTimer | script.js:443-447 | the fields change as OnResetTimer says |
| Cockpit.Watch.TimerSecond | script.js:425-435 | the tick has exactly the effect of OnTimerSecond |
| Cockpit.Watch.HandleStartStop | script.js:362-380 | the fields change as OnStartStop says |
| Cockpit.Watch.HandleReset | script.js:382-392 | the fields change as OnReset says |
| Cockpit.Watch.HandleSet | script.js:394-403 | the fields change as OnSet says |
| Cockpit.Watch.SaveSettings | script.js:945-964 | only the stored record changes, to the panel and the custom audio |
| Cockpit.Watch.UpdateAlarmTime | script.js:491-503 | the fields and the posted messages are those of OnAlarmTimeInput |
| Cockpit.Watch.ToggleAlarm | script.js:505-520 | the fields and the posted messages are those of OnAlarmEnabledInput |
| Cockpit.Watch.UpdateStopwatchAlarmTime | script.js:542-549 | the fields change as OnStopwatchAlarmTimeInput says |
| Cockpit.Watch.ToggleStopwatchAlarm | script.js:551-554 | the fields change as OnStopwatchAlarmEnabledInput says |
| Cockpit.Watch.ToggleFormat | script.js:530-534 | the fields change as OnFormatInput says |
| Cockpit.Watch.ToggleSeconds | script.js:536-540 | the fields change as OnSecondsInput says |
| Cockpit.Watch.FieldChanged | script.js:189-205 | the input's value reaches the panel and the settings are saved |
| Cockpit.Watch.HandleCustomAudioSelection | script.js:563-589 | the fields change as OnAudioChosen says |
| Cockpit.Watch.LoadSettings | script.js:966-1013 | the fields change as OnLoadSettings says |
| Cockpit.Watch.ApplySettings | script.js:972-1002 | the panel and the variables take the converted values of the record |
| Cockpit.Watch.WriteSettings | script.js:972-1002 | each assigned field takes its converted value, and the conditional ones are kept when the record lacks them |
| Cockpit.Watch.ApplyAlarm | script.js:985-986 | the alarm's time and switch take the record's values |
| Cockpit.Watch.ApplyCounters | script.js:987-992 | the warning time and the stopwatch alarm take the record's values; the alarm time is kept when none is stored |
| Cockpit.Watch.ApplyDisplay | script.js:993-994 | the two display switches take the record's values |
| Cockpit.Watch.ApplyCustomAudio | script.js:997-1002 | the custom audio is replaced only when the record holds both its data and its name |

## Left out

- Alerts.RepeatsInsideWindow: the interval `(duration + 0.2) * 1000` is computed in whole milliseconds. In floating point the `warning` profile's interval is slightly above 600, so the source schedules 49 repeats where the model schedules 50. Every other profile gives the same count.
- Alerts.AlertEngine.OnCustomMetadata: requires a positive duration in whole milliseconds. A zero or unknown duration (NaN or Infinity in the source) is not modelled. Neither is a fractional duration: the source's `duration * 1000` (script.js:637) is a float and its delays `i * actualDuration` are floats as well.
- Alerts.AlertEngine.StopAlarm: `speechSynthesis.cancel()` (script.js:710-712) is not modelled; only the bag and the pending timeouts are. An utterance already speaking is outside the model.
- Alerts.AlertEngine.PlayTones: the three oscillators of a chorus are one `Tones` emission. Their 0.01 s offsets, gains and ramps are not modelled.
- Cockpit.Watch.LoadSettings: `alarmEnabled = settings.alarmEnabled` can be `undefined` in the source; the model reads a missing value as `false`, which is how every later test treats it.
- Cockpit.ResetStopwatchRearms: when the stopwatch alarm's time is 0 or less, reset plays that alarm at once, as the source does. The lemma states this case; it does not rule it out.
- `handleAlarmSoundChange` (script.js:557-561) is `saveSettings` plus showing the custom row, so it is `FieldChanged(AlarmSoundField, …)`. Its second save is not modelled separately.
- The stop-first guard of `setupEventListeners` (script.js:147-221) is not modelled: a click or key that only stops a ringing alert. Neither are the other DOM-only handlers: `toggleConfig`, `updateActionButtons`, `displayAlarm`, `updateDate`, the LEDs, `flashDisplay`, `previewCustomAudio`, `startInstruments` and `initializeVoices`.
- The interval ticks of the stopwatch and the timer are events that exist only while the counter runs. `clearInterval` is this guard, not a timer object.
- `FileReader` is asynchronous; its result is passed in as `data`. The page's `<audio>` elements and the speech voices are not modelled.
- `scheduleAlarmNotification`, `cancelAlarmNotification` (script.js:1016-1052) and `checkAlarmsManually`: the page's messages are values in `Outcome.messages`. The `MessageChannel`, the check for a controlling worker, and the periodic manual check are not modelled.
- The worker's `install`, `activate`, `fetch`, `push`, `notificationclick` and `sync` handlers, and its `SKIP_WAITING` and `GET_VERSION` messages, are outside the alarm table and are not modelled.
- JsValues.ToNumber and JsValues.ParseInt: only decimal digits are modelled. Hexadecimal, exponent and fractional forms, and `Number`'s trimming of white space, never occur in the values the time and number inputs produce.
- The service worker's `new Date()` comparison `alarmData.date < yesterday` is in milliseconds (`dateMs < nowMs - DayMs`). `getHours() * 60 + getMinutes()` is the parameter `nowMinutes`.

## Findings

| source | as written | input that shows it | evidently intended | confidence | as-written member | corrected member |
|---|---|---|---|---|---|---|
| script.js:800-814 | the three voice layers of a speaking alert are scheduled with `setTimeout`, but their ids are never pushed to `alarmTimeouts` | `playAlarm('alarm', 'pullup')` followed at once by `stopAlarm()`: the utterances due at 0, 50 and 100 ms are still pending after `speechSynthesis.cancel()`, so "PULL UP" is spoken after the alert was stopped | every delayed action of an alert is recorded, so `stopAlarm` leaves nothing of it pending | not executed | Alerts.AsWrittenStopLeavesSpeech | Alerts.AlertEngine.PlayAlarm |
| script.js:885-899 | each repeat of a speaking profile schedules its three voice layers with `setTimeout` and never pushes their ids to `alarmTimeouts` | a 'pullup' alert whose first repeat fires, then `stopAlarm()` (the STOP button) before 100 ms pass: that repeat's utterances are still pending and speak after the stop | every voice layer a repeat schedules is recorded, so `stopAlarm` clears it | not executed | Alerts.AsWrittenRepeatLeavesSpeech | Alerts.AlertEngine.Fire |
