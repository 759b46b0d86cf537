# Spark alarm runner: a verified Dafny model

Spark is a small PHP daemon that evaluates registered health checks
("alarms"). In each cycle it runs every alarm's test in registration order
and stores a status on the alarm (SUCCESS = 1, ERROR = 2). It calls the
alarm's `success()` or `error()` hook, collects the failing alarms and the
passing ones whose success notifications are switched on, and offers that
batch to a notifier. A throttle gate passes a batch on only when `throttle`
seconds have gone by since `lastAlertSummary`, the time of the last batch
sent in the same `run()`. Each `run()` resets it to 0, so consecutive runs
each send once the clock reads at least `throttle`.

The project models the following:

- `src/Spark.php`, the current runner, in `runner.dfy`. It has a silent flag
  and keeps one notification list, in registration order.
- `spark.php`, the legacy runner, in `legacy.dfy`. It has no silent flag,
  keeps a failed list and a success list, sends the failures followed by the
  successes, and `run()` returns the runner itself.
- The alarm side, in `alarm.dfy`: the status, the hooks and the default test.
- The `/proc/meminfo` parser `getMemoryByIdentifier`, in `meminfo.dfy`.
  `src/SparkAlarm.php` and its duplicate `alarm.php` both contain it.

Shared parts:

- `selection.dfy` holds the order-preserving filter. It defines a cycle's
  batch, the legacy lists and what `removeAlarm` keeps.
- `throttle.dfy` holds the gate, the per-cycle inputs and the notifier stand-in.
- `scenarios.dfy` replays the runner's unit tests on the model.

The model is built as follows:

- Each runner is a `class` whose fields are the PHP properties. The setters,
  `addAlarm`, `sendSummary`, `run` and `removeAlarm` are methods that change
  those fields.
- `run()` is a loop over cycles around a loop over alarms, as in the source.
- Each method is proved against a specification function:
  - `Replay` is the session after the first n cycles: the returned or
    accumulated lists and the dispatch history.
  - `CycleSteps` and `Rounds` give the order of hook calls and status writes.
- The lemmas state the promised properties about those functions.
- Each cycle's inputs are a `Tick`, passed in as a parameter: the clock
  reading and, for each position, what that alarm's test answers.
- Keep-alive mode runs one cycle per tick.

Points where the model follows the code closely:

- `run()` sets `lastAlertSummary` to 0 (src/Spark.php:166, spark.php:103).
  A run whose clock reads below `throttle` therefore sends nothing. A silent
  run performs that reset too.
- `run()` returns the list accumulated over every cycle of the run
  (src/Spark.php:164, 194). The list is created once, before the `do` loop.
  In the legacy runner, both lists likewise grow across cycles.
- The two runners are modelled separately. The current one is silent-aware
  and keeps registration order. The legacy one sends the failures first and
  has no silent flag.

The legacy runner uses an `AlarmStatus` class from `status.php`, which is
not part of this model. Its two codes are taken to be those of
`src/SparkAlarmStatus.php`. The default notifier in `src/Notifier.php` also
compares with `AlarmStatus::SUCCESS`, which nothing under `src/` defines; the
model takes code 1 from `src/SparkAlarmStatus.php:10`. `alarm.php` repeats the `src/SparkAlarm.php`
members modelled here line for line, so each is modelled once. The rows
below cite either copy.

## Model

| member | source | states |
|---|---|---|
| `Alarms.Alarm.constructor` | alarm.php:18-19 | a new alarm has no status yet and its own success-notification flag is off |
| `Alarms.Alarm.Notifying` | src/SparkAlarm.php:26-30 | an alarm class that switches the public flag on starts with the flag set and no status |
| `Alarms.Alarm.SetStatus` | src/SparkAlarm.php:36-38 | `status(s)` stores exactly `s` |
| `Alarms.StatusFor` | src/SparkAlarmStatus.php:10-11 | a passing test is recorded as SUCCESS (1) and a failing one as ERROR (2), each exactly in its own case |
| `Alarms.DefaultTest` | src/SparkAlarm.php:58-60 | a bare alarm's test never passes, so the runner always records ERROR for it |
| `Alarms.NotifierMessage` | src/Notifier.php:19-23 | the default notifier shows the success message "I succeeded" (src/SparkAlarm.php:153-156) exactly for a SUCCESS status, and the error message "Oops, it failed" (src/SparkAlarm.php:162-165) for any other status |
| `Scenarios.StatusTwice` | alarm.php:21-23 | storing the same status twice leaves the alarm as storing it once does |
| `Alarms.LastVerdictAt` | src/Spark.php:169-184 | when an alarm object is registered only once, the verdict it last received in a pass is the verdict at its own position |
| `Alarms.CycleStepsAt` | src/Spark.php:171-183 | a cycle makes exactly two calls per alarm, in registration order: on success the `success()` hook, then status SUCCESS; on failure status ERROR, then the `error()` hook |
| `Alarms.SettledStatuses` | src/Spark.php:171-183 | after a pass over distinct alarms, each alarm's status is SUCCESS exactly when its test passed and ERROR exactly when it failed |
| `Selection.NotifiedMembers` | src/Spark.php:169-184 | an alarm is in a cycle's batch exactly when it failed, or passed with the global or its own success flag set |
| `Selection.BareAlarmsAllReported` | src/SparkAlarm.php:58-60 | alarms whose test is the default `false` all fail: the batch and the legacy failed list are the whole list, and the legacy success list is empty |
| `Selection.LegacyBatchPermutes` | spark.php:105-119 | the legacy batch (failures, then qualifying successes) holds the same alarms, with the same multiplicities, as the current runner's batch |
| `Selection.SurvivorsExact` | src/Spark.php:214-224 | `removeAlarm` keeps exactly the alarms of another class; no alarm of the removed class survives |
| `Selection.SurvivorsIdempotent` | spark.php:137-147 | removing the same class twice removes nothing more the second time |
| `Selection.SurvivorsOfAbsentClass` | src/Spark.php:217-222 | removing a class no registered alarm belongs to leaves the list as it was |
| `Throttle.ResetSpaced` | src/Spark.php:166 | the gate as `run()` resets it keeps the throttle promise: nothing sent and `lastAlertSummary` 0 |
| `Throttle.OfferKeepsSpacing` | src/Spark.php:201-207 | every `sendSummary` step keeps the throttle promise: one timestamp per sent batch, `lastAlertSummary` equal to the latest one, sends at least `throttle` apart |
| `Runner.AccumulatorGrows` | src/Spark.php:164-193 | the notification list is never cleared: what the first c cycles collected is a prefix of what the run returns |
| `Runner.DispatchedBatchesGrow` | src/Spark.php:164-188 | every batch sent is a prefix of the returned list, and each sent batch extends the one sent before it |
| `Runner.SilentNeverSends` | src/Spark.php:186-188 | a silent run never sends anything: the gate stays as the reset left it |
| `Runner.ReplaySpaced` | src/Spark.php:166-207 | over a whole run the sends are at least `throttle` apart, the first at least `throttle` after the reset, and `lastAlertSummary` is the time of the latest send (0 before any) |
| `Runner.FirstCycle` | src/Spark.php:164-166 | the first cycle starts from an empty list and a `lastAlertSummary` of 0 |
| `Runner.SingleCycleReports` | src/Spark.php:168-194 | without keep-alive, the returned list holds exactly the failing alarms and the passing ones with a success flag set, so every failing alarm is in it |
| `Runner.SingleCycleDispatch` | src/Spark.php:166-207 | without keep-alive, the list is sent, and `lastAlertSummary` becomes the clock reading, exactly when the runner is not silent and the clock reads at least `throttle`; an empty list is sent too |
| `Runner.Spark.constructor` | src/Spark.php:18-65 | the defaults: no alarms, no keep-alive, interval 300, throttle 1500, `lastAlertSummary` 0, not silent, no global success flag, a fresh notifier |
| `Runner.Spark.SetInterval` | src/Spark.php:73-77 | `interval()` sets the interval and nothing else |
| `Runner.Spark.SetSilent` | src/Spark.php:84-87 | `silent()` sets the silent flag and nothing else |
| `Runner.Spark.SetSendNotificationsOnSuccess` | src/Spark.php:94-98 | `sendNotificationsOnSuccess()` sets the global success flag and nothing else |
| `Runner.Spark.UseNotifier` | src/Spark.php:105-109 | `notifier()` replaces the notifier and nothing else |
| `Runner.Spark.SetThrottle` | src/Spark.php:117-121 | `throttle()` sets the throttle and nothing else |
| `Runner.Spark.SetKeepAlive` | src/Spark.php:130-137 | `keepAlive()` sets the keep-alive flag and nothing else |
| `Runner.Spark.SetOutput` | src/Spark.php:231-235 | `output()` stores the destination, which nothing reads |
| `Runner.Spark.AddAlarm` | src/Spark.php:144-148 | `addAlarm` appends the alarm after the earlier ones, which stay as they were |
| `Runner.Spark.GetAlarms` | src/Spark.php:154-156 | `getAlarms` returns exactly the registered list and changes nothing |
| `Runner.Spark.SendSummary` | src/Spark.php:201-207 | when due, the notifier receives the batch and `lastAlertSummary` becomes the clock reading; otherwise neither changes |
| `Runner.Spark.Visit` | src/Spark.php:171-183 | one alarm: its status, its two hook events in source order, and the alarm appended when it failed or qualifies; earlier alarms keep their statuses |
| `Runner.Spark.Evaluate` | src/Spark.php:169-184 | the foreach appends this cycle's batch to the list, performs the hook and status events of `CycleSteps` in order, and leaves every alarm with its last verdict's status |
| `Runner.Spark.Cycle` | src/Spark.php:168-193 | one iteration of the do-while is one `Step` of the specification: the list extended and, unless silent, offered to the gate |
| `Runner.Spark.Run` | src/Spark.php:162-195 | `run()` returns the `Replay` list, and the notifier and `lastAlertSummary` end as `Replay`'s dispatch history says; the events are `Rounds` and every alarm carries its last-cycle status |
| `Runner.Spark.RemoveAlarm` | src/Spark.php:214-224 | `removeAlarm` sets the list to `Survivors` (an order-preserving filter by class) and touches no alarm |
| `LegacyRunner.ListsGrow` | spark.php:101-125 | both legacy lists persist across keep-alive cycles: earlier contents are a prefix of later ones |
| `LegacyRunner.ListMembers` | spark.php:104-117 | an alarm is in the failed list exactly when it failed in some cycle, and in the success list exactly when it passed with a success flag set in some cycle |
| `LegacyRunner.OfferAgrees` | spark.php:129-135 | the gate decides on the clock and the timestamp alone, whatever order the batch is in |
| `LegacyRunner.AgreesWithCurrent` | spark.php:99-127 | a legacy run and a non-silent current run with the same inputs send at the same moments, end with the same `lastAlertSummary`, and send batches with the same alarms and multiplicities |
| `LegacyRunner.LegacySpaced` | spark.php:103-135 | the legacy runner keeps the throttle promise too |
| `LegacyRunner.SingleCycle` | spark.php:101-120 | without keep-alive, the failed list is the failing alarms in order, the success list the qualifying passing ones, and their concatenation is sent exactly when the clock reads at least `throttle` |
| `LegacyRunner.Spark.constructor` | spark.php:20-57 | the legacy defaults: no alarms, no keep-alive, interval 300, throttle 1500, `lastAlertSummary` 0, no global success flag, a fresh notifier |
| `LegacyRunner.Spark.SetInterval` | spark.php:59-63 | `interval()` sets the interval and nothing else |
| `LegacyRunner.Spark.SetSendNotificationsOnSuccess` | spark.php:65-69 | `sendNotificationsOnSuccess()` sets the global success flag and nothing else |
| `LegacyRunner.Spark.UseNotifier` | spark.php:71-75 | `notifier()` replaces the notifier and nothing else |
| `LegacyRunner.Spark.SetThrottle` | spark.php:77-81 | `throttle()` sets the throttle and nothing else |
| `LegacyRunner.Spark.SetKeepAlive` | spark.php:84-91 | `keepAlive()` sets the keep-alive flag and nothing else |
| `LegacyRunner.Spark.SetOutput` | spark.php:149-153 | `output()` stores the destination, which nothing reads |
| `LegacyRunner.Spark.AddAlarm` | spark.php:93-97 | `addAlarm` appends the alarm after the earlier ones |
| `LegacyRunner.Spark.SendSummary` | spark.php:129-135 | when due, the notifier receives the batch and `lastAlertSummary` becomes the clock reading; otherwise neither changes |
| `LegacyRunner.Spark.Visit` | spark.php:106-116 | one alarm: a failure goes to the failed list before its ERROR status and `error()` hook; a success runs `success()` before its SUCCESS status and goes to the success list when it qualifies |
| `LegacyRunner.Spark.Evaluate` | spark.php:105-117 | the foreach appends this cycle's failures and qualifying successes to the two lists, in order, with the hook and status events of `CycleSteps` |
| `LegacyRunner.Spark.Cycle` | spark.php:104-124 | one iteration is one legacy `Step`: both lists extended, then the failures followed by the successes offered to the gate, with no silent check |
| `LegacyRunner.Spark.Run` | spark.php:99-127 | `run()` returns the runner itself, and the notifier and `lastAlertSummary` end as the legacy `Replay` says; the events are `Rounds` and every alarm carries its last-cycle status |
| `LegacyRunner.Spark.RemoveAlarm` | spark.php:137-147 | `removeAlarm` sets the list to `Survivors` and touches no alarm |
| `Meminfo.CaptureComplete` | src/SparkAlarm.php:139 | every line of the form `name:`, whitespace, digits, one whitespace, `kB`, then the end or one final line feed, matches and yields its digits |
| `Meminfo.CaptureSound` | alarm.php:81 | every line that matches has exactly that form, with the captured field as its digits |
| `Meminfo.OtherKeyNeverMatches` | src/SparkAlarm.php:139 | the key is anchored at the line start and followed immediately by the colon, so a line for another key never matches, even when one key extends the other |
| `Meminfo.FirstMatchWins` | src/SparkAlarm.php:137-143 | when line i matches and every earlier line was read past, line i's field is the answer, whatever follows |
| `Meminfo.ScanFound` | alarm.php:79-85 | every answer comes from a matching line that all earlier lines were read past |
| `Meminfo.NoMatchIsNone` | src/SparkAlarm.php:136-145 | when no line matches, the answer stays at its initial 0 |
| `Meminfo.StopsAtFalsy` | alarm.php:79 | a falsy line ("" or "0") ends the scan: nothing after it is read |
| `Meminfo.ValueOfRender` | src/SparkAlarm.php:140 | a number printed in decimal reads back as itself |
| `Meminfo.ReadsRenderedAmount` | alarm.php:75-88 | the line `name:  <n> kB` for an amount n, preceded only by lines that are read past, is read back as n |
| `Meminfo.MemoryByIdentifier` | src/SparkAlarm.php:133-146 | the while/break loop answers `Scan`'s result: the first matching line's amount, or 0 |
| `Meminfo.TotalMemory` | src/SparkAlarm.php:102-105 | `getTotalMemory` answers the `MemTotal` line's amount |
| `Meminfo.FreeMemory` | alarm.php:62-65 | `getFreeMemory` answers the `MemFree` line's amount |
| `Scenarios.SilentTest` | tests/SparkTest.php:14-21 | a silent runner with one failing alarm returns that one alarm and sends nothing |
| `Scenarios.RunOnceSends` | tests/SparkTest.php:28-34 | a non-silent run without keep-alive, at a clock reading past the default throttle, sends exactly its list |
| `Scenarios.MixedBatch` | tests/SparkTest.php:41-52 | two failing alarms and a passing one without its own flag give a batch of two alarms, or all three with the global success flag |
| `Scenarios.NotifierTest` | tests/SparkTest.php:24-52 | on the test's four runs the notifier's latest batch holds 1, 2, 2 and 3 alarms |

## Left out

- The clock, `sleep()` and `set_time_limit()` are not modelled. Each cycle's
  clock reading is an input, and the two `time()` calls in `sendSummary` are
  taken to read the same instant.
- Keep-alive's endless `do … while` is modelled as the first |ticks| cycles
  of the run.
- An alarm's `test()` is user code. It is an input, one verdict per alarm per
  cycle. The default `test()` is modelled as `DefaultTest`.
- The `success()` and `error()` hooks are user code. They are recorded as
  events, to fix their order against the status writes, and otherwise do
  nothing in the model.
- The notifier is a stand-in that records each batch it is sent. Of the
  default notifier in `src/Notifier.php`, the choice of message by status is
  modelled as `NotifierMessage`. Its printing (`echo`, `get_class`, `date()`)
  is left out.
- User code that throws is not modelled: every `test()` answers and every
  `success()` and `error()` hook returns. In the source neither runner
  catches exceptions, so a throw would leave `run()` at once, skipping later
  alarms and `sendSummary`.
- The CPU load, the disk readings and the two percentage helpers are not
  modelled. They call into the system and use floating point.
- The file access of the meminfo parser (`fopen`, `fgets`, `fclose`) is not
  modelled. The file arrives as the lines `fgets` would return.
- Meminfo.MemoryByIdentifier: answers the matched digit field as a number.
  The source returns the digit string, which PHP converts wherever it is used
  as a number.
- Meminfo.Capture: matches the key literally. The source inserts it into
  the pattern unescaped, but it is only called with `MemTotal` and `MemFree`,
  which contain no pattern characters.
- Alarms.Alarm.Notifying: fixes an alarm's own success flag at
  construction. In the source it is a public property that a subclass or a
  caller may change at any time.
- Alarms.Alarm.SetStatus: stores any integer code, like `status(int)`.
  Runners only store 1 and 2.
- Fluent setters are methods without a result. Returning `$this` for
  chaining is not modelled, except in the legacy `run()`.
- `output` is a string, initially empty. In the source it starts as `false`
  and takes any value.
- Scenarios.NotifierTest: assumes the test notifier's `receivedAlarms` is
  the latest batch it was sent. The test helper classes are not part of this
  model.
- Scenarios.NotifierTest: states the test's counts over `Replay`. The
  objects are tied to `Replay` through `Runner.Spark.Run`.
- Alarms.SettledStatuses: states the status for each position only when no
  alarm object is registered twice. Otherwise the later position's verdict
  wins, which `Alarms.Settled` states.
