# Session lifecycle of Mobile_Automation, modelled in Dafny

This project models the session-lifecycle core of the Mobile_Automation test
framework (Java, Appium, TestNG). It covers:

- `BaseTest`:
  - supervision of the Appium server: `ensureAppiumServerRunning`, `startAppiumServer` with its scan over ten
    consecutive ports, and `stopAppiumServer`;
  - the per-test `initializeDriver` with three attempts, a session-id poll, a liveness probe and a two-second back-off;
  - the per-worker driver registry (`getDriver` / `setDriver` / `removeDriver` over a `ThreadLocal`);
  - `tearDown`, and the class-level `setUp` / `afterClass` pair.
- `DriverFactory`:
  - `getDriver`, with case-insensitive platform dispatch, a session-validation poll, quitting a half-built driver,
    and two layers of exception wrapping;
  - the Android and iOS capability records;
  - `quitDriver` and `isSessionActive`.
- The two `ConfigReader` classes:
  - the lenient `getIntProperty(key, default)` and the strict `getIntProperty(key)`;
  - `getIPPort`, the `~/` expansion in `getIOSAppPath`, the `Boolean.parseBoolean` getters and the `Long.parseLong`
    getters.

Every external effect is an answer supplied by the caller, and every operation returns its result with a trace of
the calls it made. External effects include:

- the Appium service reporting running;
- a driver constructor returning or throwing;
- `getSessionId()`, `getPageSource()` and `quit()`;
- an interrupted sleep.

The trace events are port attempts, service stops, process kills, session-id queries, probes, quits and sleeps.
Properties about counts (ports tried, sleeps, quits) and order are stated over these traces.

Layout, one module per file:

- `JavaLang`: `Option`, `Result`, Java exceptions with cause chains, and 32-bit `int` addition.
- `JavaText`: ASCII `toLowerCase`, `trim`, `Integer.parseInt`, `Long.parseLong`, `Boolean.parseBoolean`, and
  `Paths.get(first, more)` on a Unix file system.
- `UtilConfig` (`utilities.ConfigReader`) and `StrictConfig` (`helper.ConfigReader`).
- `Effects`: trace events and their counts.
- `Registry`: the `ThreadLocal` as a map from worker to driver.
- `ServerSupervisor`, `Capabilities` and `DriverFactory`.
- `Lifecycle`: `initializeDriver`, `tearDown`, and class-level set-up and clean-up.

`initializeDriver` and its steps are methods, so each step is verified once against its own contract. The retry loop
is `Lifecycle.RetryFrom`, which recurses once per attempt.

Where the code's behaviour may surprise a reader, the model follows it:

- A platform name other than "android" / "ios" is caught like any other failure inside `initializeDriver`. It is
  therefore retried three times, with back-offs in between, not refused at once.
  `Lifecycle.InitializeDriver` states this.
- The factory's session poll sleeps one second after every null read, including the tenth. Only a throwing tenth
  read skips the sleep.
- Exhausting the port scan with timeouts only still throws. The chained cause is then absent.
- The final `initializeDriver` message always says "after 3 attempts", even when an interrupted back-off ended the
  loop after fewer attempts.
- `DriverFactory.getDriver` assigns the static `driver` before the log line's own `getSessionId()`. When that call
  throws, the static field keeps a driver that has just been quit. `DriverFactory.StaticDriverOnFailure` states this.

## Model

| member | source | states |
|---|---|---|
| JavaLang.AddInt32 | mobile_automation/src/main/java/factory/BaseTest.java:541 | `basePort + portOffset` in Java `int` arithmetic: the exact sum when it fits, otherwise the sum shifted by 2^32 (two's-complement wrap-around) |
| JavaText.ToLowerIsCaseInsensitiveMatch | mobile_automation/src/main/java/factory/DriverFactory.java:22 | a string lower-cases to a lower-case ASCII word exactly when it has the word's length and each character is the word's letter in either case |
| JavaText.Trim | mobile_automation/src/main/java/helper/ConfigReader.java:25 | `trim()` returns a slice no longer than its input whose first and last characters are not blanks (characters at most U+0020) |
| JavaText.TrimEmptyIffAllBlank | mobile_automation/src/main/java/helper/ConfigReader.java:25 | `value.trim().isEmpty()` holds exactly when every character is at most U+0020 |
| JavaText.TrimIsSliceBetweenNonBlanks | mobile_automation/src/main/java/helper/ConfigReader.java:25 | `trim()` removes exactly the blank runs at both ends: for cut points with only blanks outside them and a non-blank character at each inner edge, the result is the slice between them |
| JavaText.ParseInt | mobile_automation/src/main/java/utilities/ConfigReader.java:37 | `Integer.parseInt` succeeds exactly on an optionally signed, non-empty digit string whose value lies in the 32-bit range, and returns that value |
| JavaText.ParseLong | mobile_automation/src/main/java/utilities/ConfigReader.java:134-140 | `Long.parseLong` succeeds exactly on an optionally signed digit string whose value lies in the 64-bit range, and returns that value |
| JavaText.ParsedNumeralHasNoBlanks | mobile_automation/src/main/java/helper/ConfigReader.java:25-27 | a numeral the parser accepts consists of a sign and digits only, so it neither starts nor ends with a blank |
| JavaText.ParseIntToString | mobile_automation/src/main/java/utilities/ConfigReader.java:37 | round trip: `Integer.parseInt(Integer.toString(n)) == n` for every `int` |
| JavaText.ParseLongToString | mobile_automation/src/main/java/utilities/ConfigReader.java:135 | round trip: `Long.parseLong(Long.toString(n)) == n` for every `long` |
| JavaText.ParseBoolean | mobile_automation/src/main/java/utilities/ConfigReader.java:115 | `Boolean.parseBoolean(null)` is false |
| JavaText.ParseBooleanTrueIff | mobile_automation/src/main/java/utilities/ConfigReader.java:82 | exactly the sixteen case variants of "true" parse to true |
| JavaText.JoinPath | mobile_automation/src/main/java/utilities/ConfigReader.java:60 | `Paths.get(first, more)` fails exactly when either part contains a NUL character |
| JavaText.JoinCleanPaths | mobile_automation/src/main/java/utilities/ConfigReader.java:60 | a clean absolute home directory joined with a clean relative remainder is the two joined by a single '/' |
| UtilConfig.GetIntProperty | mobile_automation/src/main/java/utilities/ConfigReader.java:31-41 | an absent key or a value `parseInt` rejects yields the default, and the getter never throws; any other result is the decimal value of the stored string |
| UtilConfig.GetIntPropertyReadsBack | mobile_automation/src/main/java/utilities/ConfigReader.java:31-41 | storing `Integer.toString(n)` makes the lenient getter return `n`, whatever the default |
| UtilConfig.GetIntPropertyPaddedIsDefault | mobile_automation/src/main/java/utilities/ConfigReader.java:36-40 | a value with a leading or trailing blank is not trimmed, so the default is returned |
| UtilConfig.GetIPPort | mobile_automation/src/main/java/utilities/ConfigReader.java:148 | the port is 4723 when `appium.server.port` is absent or not a valid `int`, and otherwise the parsed value |
| UtilConfig.GetIOSAppPath | mobile_automation/src/main/java/utilities/ConfigReader.java:57-63 | an absent value throws `NullPointerException`; a value without the "~/" prefix is returned unchanged; one with it is the home directory joined with the rest after the first two characters |
| UtilConfig.IOSAppPathExpandsTilde | mobile_automation/src/main/java/utilities/ConfigReader.java:57-63 | for a clean home directory and remainder, "~/rest" becomes "home/rest", which no longer starts with "~/" |
| UtilConfig.GetBoolean | mobile_automation/src/main/java/utilities/ConfigReader.java:114-116 | an absent key reads as false |
| UtilConfig.GetBooleanTrueIff | mobile_automation/src/main/java/utilities/ConfigReader.java:81-87 | a boolean getter is true exactly when the stored value is "true" in some mix of cases |
| UtilConfig.GetLongRequired | mobile_automation/src/main/java/utilities/ConfigReader.java:134-140 | the `long` getters succeed exactly when the key is present and its value is a valid `long`, returning that value; otherwise they throw `NumberFormatException` |
| UtilConfig.GetImplicitWait | mobile_automation/src/main/java/utilities/ConfigReader.java:134-136 | `getImplicitWait()` returns the value of `implicit.wait` exactly when the key is present and `Long.parseLong` accepts it; otherwise it throws `NumberFormatException` |
| UtilConfig.GetCommandTimeout | mobile_automation/src/main/java/utilities/ConfigReader.java:138-140 | `getCommandTimeout()` returns the value of `command.timeout` exactly when the key is present and `Long.parseLong` accepts it; otherwise it throws `NumberFormatException` |
| UtilConfig.LongGettersHaveNoDefault | mobile_automation/src/main/java/utilities/ConfigReader.java:134-140 | where the key is absent or its value is not a numeral, the lenient `int` getter returns its default while the `long` getters, `getImplicitWait` and `getCommandTimeout` among them, throw |
| UtilConfig.WideValueOnlyReadAsLong | mobile_automation/src/main/java/utilities/ConfigReader.java:31-41 | a numeral outside the `int` range but inside the `long` range, such as "3000000000", makes the lenient `int` getter return its default, while the `long` getter returns the value |
| UtilConfig.GetLongRequiredReadsBack | mobile_automation/src/main/java/utilities/ConfigReader.java:134-140 | storing `Long.toString(n)` makes the `long` getter return `n` |
| StrictConfig.GetIntPropertyStrict | mobile_automation/src/main/java/helper/ConfigReader.java:23-33 | a value `parseInt` accepts is returned; every failure is a `RuntimeException`; an absent key gives "Property ... not found or empty in config file"; a present, non-blank value `parseInt` rejects gives "Invalid integer value for key: <key>", caused by the `NumberFormatException` |
| StrictConfig.StrictNotFoundIffAbsentOrBlank | mobile_automation/src/main/java/helper/ConfigReader.java:24-32 | the "not found or empty" error is raised exactly when the key is absent or its value is all blanks |
| StrictConfig.StrictRejectsPaddedNumeral | mobile_automation/src/main/java/helper/ConfigReader.java:25-30 | a non-blank value with surrounding blanks, such as " 5", is parsed untrimmed and rejected as "Invalid integer value for key", wrapping the `NumberFormatException` |
| StrictConfig.StrictReadsBack | mobile_automation/src/main/java/helper/ConfigReader.java:23-33 | storing `Integer.toString(n)` makes the strict getter return `n` |
| StrictConfig.StrictAgreesWithLenient | mobile_automation/src/main/java/helper/ConfigReader.java:23-33 | where the strict getter succeeds, the lenient one returns the same value for every default; where the lenient one falls back, the strict one throws |
| Capabilities.AndroidDeviceOptions | mobile_automation/src/main/java/factory/DriverFactory.java:100-105 | the emulator set-up is chosen exactly when `emulator.enabled` reads true |
| Capabilities.AndroidCapabilities | mobile_automation/src/main/java/factory/DriverFactory.java:86-105 | the Android options are built exactly when `getCommandTimeout()` succeeds, carry its value, and otherwise fail with its exception |
| Capabilities.AndroidCapabilitiesPolicy | mobile_automation/src/main/java/factory/DriverFactory.java:89-105 | Android options always have noReset, no fullReset and autoGrantPermissions; the emulator flag selects avd, platform version, headless and 180-second timeouts, and otherwise the udid |
| Capabilities.IOSDeviceOptions | mobile_automation/src/main/java/factory/DriverFactory.java:126-131 | the simulator set-up is chosen exactly when `emulator.enabled` reads true |
| Capabilities.IOSCapabilities | mobile_automation/src/main/java/factory/DriverFactory.java:112-131 | the iOS options are built exactly when the app path and the command timeout both succeed; a missing app path is reported first |
| Capabilities.IOSCapabilitiesPolicy | mobile_automation/src/main/java/factory/DriverFactory.java:115-131 | iOS options always use XCUITest with noReset and no fullReset; the emulator flag selects the simulator device, platform version and headless flag, and otherwise the real device's name and udid |
| Registry.Get | mobile_automation/src/main/java/factory/BaseTest.java:45-47 | `getDriver()` is non-null exactly when the worker's slot is set, and then it is that driver |
| Registry.Set | mobile_automation/src/main/java/factory/BaseTest.java:54-56 | after `setDriver(d)` the worker reads `d`, and only that worker's slot can be new |
| Registry.Remove | mobile_automation/src/main/java/factory/BaseTest.java:62-64 | after `removeDriver()` the worker reads null, and only that worker's slot is gone |
| Registry.OtherSlotsUntouched | mobile_automation/src/main/java/factory/BaseTest.java:36 | setting or removing one worker's slot never changes what another worker reads |
| Registry.SetThenRemove | mobile_automation/src/main/java/factory/BaseTest.java:54-64 | removing after setting is the same as removing alone |
| Registry.WorkersCommute | mobile_automation/src/main/java/factory/BaseTest.java:36 | operations of two different workers commute |
| Registry.RemoveAbsent | mobile_automation/src/main/java/factory/BaseTest.java:62-64 | removing an empty slot changes nothing |
| Registry.SetAfterRemove | mobile_automation/src/main/java/factory/BaseTest.java:54-64 | setting overwrites, so an earlier removal makes no difference, and removing twice is removing once |
| ServerSupervisor.PortsFromAt | mobile_automation/src/main/java/factory/BaseTest.java:540-541 | the i-th port of a run of offsets is `basePort + (lo + i)` in `int` arithmetic |
| ServerSupervisor.PortsUntilFirstStarted | mobile_automation/src/main/java/factory/BaseTest.java:540-564 | with a first running offset k, the ports tried are exactly those of offsets up to and including k |
| ServerSupervisor.PortsUntilNoneStarted | mobile_automation/src/main/java/factory/BaseTest.java:540-578 | with no running offset, every remaining port is tried |
| ServerSupervisor.AfterFailedAttempt | mobile_automation/src/main/java/factory/BaseTest.java:551-577 | after an attempt that did not report running, the static service does not report running |
| ServerSupervisor.CauseOf | mobile_automation/src/main/java/factory/BaseTest.java:567-569 | `lastException` after a failed port attempt: the attempt's own exception when it threw, null when the server merely did not come up in time |
| ServerSupervisor.StopCalls | mobile_automation/src/main/java/factory/BaseTest.java:571-576 | the clean-up of a throwing attempt tries no port, kills nothing and never sleeps |
| ServerSupervisor.Scan | mobile_automation/src/main/java/factory/BaseTest.java:540-578 | a scan that binds a port leaves the service running on that port; one that binds nothing leaves no running service; the ports recorded as tried are those of the reference `PortsUntilStarted`; the scan never kills or sleeps |
| ServerSupervisor.ScanStep | mobile_automation/src/main/java/factory/BaseTest.java:540-577 | a port attempt that does not bind records its own port and hands the next offset the service it left and its exception as `lastException` |
| ServerSupervisor.ScanBindsFirst | mobile_automation/src/main/java/factory/BaseTest.java:540-564 | the scan binds the port of the first offset that reports running, with the service running there |
| ServerSupervisor.ScanTriedIsTrace | mobile_automation/src/main/java/factory/BaseTest.java:540-578 | the ports a scan records as tried are exactly its `TryPort` calls, in order |
| ServerSupervisor.ScanFindsFirst | mobile_automation/src/main/java/factory/BaseTest.java:540-564 | the scan stops at the first running offset k, binds its port, and tries exactly the ports of offsets up to k |
| ServerSupervisor.ScanExhausts | mobile_automation/src/main/java/factory/BaseTest.java:540-578 | with no running offset, the scan binds nothing, tries every remaining port, and `lastException` is what the last attempt left: its exception, or null after a timeout |
| ServerSupervisor.StartAppiumServer | mobile_automation/src/main/java/factory/BaseTest.java:514-589 | a running service is a no-op with no calls; otherwise stray processes are killed first; success holds exactly when the service ends up running; every failure is "Failed to start Appium server: ..." wrapping "Failed to start Appium server after 10 attempts"; no sleep is recorded |
| ServerSupervisor.IsRunning | mobile_automation/src/main/java/factory/BaseTest.java:281 | `service != null && service.isRunning()`: a null service never counts as running; otherwise it is what the service reports |
| ServerSupervisor.EnsureAppiumServerRunning | mobile_automation/src/main/java/factory/BaseTest.java:280-287 | the server is started only when the service is null or not running; otherwise nothing happens |
| ServerSupervisor.StartBindsFirstRunningPort | mobile_automation/src/main/java/factory/BaseTest.java:514-564 | when not running, a start binds `basePort + k` for the first running offset k, after exactly k + 1 port attempts in order |
| ServerSupervisor.StartAfterUnboundScan | mobile_automation/src/main/java/factory/BaseTest.java:579-588 | when the scan binds no port, the start kills stray processes first and throws "Failed to start Appium server: ..." wrapping "Failed to start Appium server after 10 attempts", whose cause is the scan's `lastException` |
| ServerSupervisor.StartFailsAfterTenAttempts | mobile_automation/src/main/java/factory/BaseTest.java:566-588 | with no running offset, exactly ten ports are tried, and the inner cause is present exactly when the tenth attempt threw |
| ServerSupervisor.StartSucceedsIff | mobile_automation/src/main/java/factory/BaseTest.java:514-589 | a start succeeds exactly when the service already runs or one of the ten ports reports running |
| ServerSupervisor.PortsAreConsecutive | mobile_automation/src/main/java/factory/BaseTest.java:540-541 | without overflow, the ports tried are `basePort, basePort + 1, ...`, strictly increasing |
| ServerSupervisor.EnsureTwiceStartsOnce | mobile_automation/src/main/java/factory/BaseTest.java:280-287 | calling `ensureAppiumServerRunning` again after a success does nothing: no kill, no port attempt, the same service |
| ServerSupervisor.StopAppiumServer | mobile_automation/src/main/java/factory/BaseTest.java:594-607 | never throws; does nothing unless the service runs; otherwise it calls `stop()` first, then kills stray processes and leaves the service stopped unless `stop()` threw |
| ServerSupervisor.StopIsIdempotent | mobile_automation/src/main/java/factory/BaseTest.java:594-607 | stopping twice is the same as stopping once |
| DriverFactory.ResolvePlatform | mobile_automation/src/main/java/factory/DriverFactory.java:27-36 | Android is chosen exactly for "android" and iOS exactly for "ios" |
| DriverFactory.Wrap | mobile_automation/src/main/java/factory/DriverFactory.java:78-82 | an error raised inside the inner `try` escapes as "Critical error in driver initialization", caused by "Failed to initialize <platform> driver", caused by the original exception and its own causes. A missing platform fails before the inner `try` and is outside this wrapping |
| DriverFactory.BuildRequest | mobile_automation/src/main/java/factory/DriverFactory.java:86-136 | the request targets the configured server URL and matches the platform; a missing URL fails |
| DriverFactory.FactoryPoll | mobile_automation/src/main/java/factory/DriverFactory.java:41-56 | the poll finds a session exactly when some remaining read is non-null; it only queries this driver and sleeps one second |
| DriverFactory.FactoryPollFindsFirst | mobile_automation/src/main/java/factory/DriverFactory.java:44-50 | a session id first seen at read k costs k + 1 queries and k sleeps |
| DriverFactory.FactoryPollExhausts | mobile_automation/src/main/java/factory/DriverFactory.java:44-56 | without a session id all ten queries are made, with a sleep after every null read and none after a throwing last read |
| DriverFactory.GetDriver | mobile_automation/src/main/java/factory/DriverFactory.java:20-84 | every escaping exception is the "Critical error" `RuntimeException`; a returned driver was constructed and a poll saw its id; the static field changes only to a validated driver; quits only touch the new driver; sleeps are one-second ones |
| DriverFactory.Launch | mobile_automation/src/main/java/factory/DriverFactory.java:38-79 | after construction, the driver is returned exactly when some poll saw its id and the log line's query did not throw; otherwise the error is the constructor's exception, "Failed to establish valid driver session" when no poll saw an id (static field unchanged), or the log line's exception, each wrapped twice |
| DriverFactory.UnsupportedPlatformRejected | mobile_automation/src/main/java/factory/DriverFactory.java:27-36 | an unknown platform is refused before anything is built: "Unsupported platform: <name>" wrapped twice, no calls, static field unchanged |
| DriverFactory.AndroidMatchIgnoresCase | mobile_automation/src/main/java/factory/DriverFactory.java:22-29 | Android is selected exactly by the seven-letter "android" in any mix of cases |
| DriverFactory.IOSMatchIgnoresCase | mobile_automation/src/main/java/factory/DriverFactory.java:22-32 | iOS is selected exactly by "ios" in any mix of cases |
| DriverFactory.GetDriverSucceedsIff | mobile_automation/src/main/java/factory/DriverFactory.java:20-84 | a driver is returned exactly when the platform is known, the request builds, the constructor returns, some poll sees an id, and the log line's query does not throw |
| DriverFactory.GetDriverResultIgnoresStatic | mobile_automation/src/main/java/factory/DriverFactory.java:20-84 | the result and the calls of `getDriver()` do not depend on the static field's old value; only the field's new value does |
| DriverFactory.LaunchFailureQuitsOnce | mobile_automation/src/main/java/factory/DriverFactory.java:69-77 | a constructed driver that then fails is quit exactly once |
| DriverFactory.FailedDriverQuitOnce | mobile_automation/src/main/java/factory/DriverFactory.java:69-77 | any `getDriver()` failure after construction quits the new driver exactly once |
| DriverFactory.QuitErrorIgnored | mobile_automation/src/main/java/factory/DriverFactory.java:72-76 | what `quit()` answers never changes the result, the static field or the calls, so a quit error cannot replace the original cause |
| DriverFactory.StaticDriverOnFailure | mobile_automation/src/main/java/factory/DriverFactory.java:62-79 | on failure the static field keeps its old value, except when only the log line's query threw: then it holds the new driver, which has been quit once |
| DriverFactory.QuitDriver | mobile_automation/src/main/java/factory/DriverFactory.java:163-180 | afterwards the static driver is null on every path; quit is called at most once, only on a non-null session id; nothing throws |
| DriverFactory.IsSessionActive | mobile_automation/src/main/java/factory/DriverFactory.java:186-192 | true exactly when there is a driver and its session id reads non-null; a throwing read gives false |
| DriverFactory.NoActiveSessionAfterQuit | mobile_automation/src/main/java/factory/DriverFactory.java:163-192 | after `quitDriver()` no session is reported active, whatever the driver would answer |
| Lifecycle.Observe | mobile_automation/src/main/java/factory/BaseTest.java:281 | the service as `isRunning()` reports it: running exactly when present and up |
| Lifecycle.SessionPoll | mobile_automation/src/main/java/factory/BaseTest.java:328-346 | the poll finds an id exactly when some remaining read is non-null; it only queries and sleeps one second |
| Lifecycle.SessionPollFindsFirst | mobile_automation/src/main/java/factory/BaseTest.java:331-342 | an id first seen at read k costs k + 1 queries and k sleeps |
| Lifecycle.SessionPollExhausts | mobile_automation/src/main/java/factory/BaseTest.java:331-342 | without an id, all ten queries are made with nine sleeps, null and throwing reads alike |
| Lifecycle.DropExisting | mobile_automation/src/main/java/factory/BaseTest.java:305-314 | the worker's existing driver is quit once and the slot always ends empty; an empty slot makes no call |
| Lifecycle.Validate | mobile_automation/src/main/java/factory/BaseTest.java:344-369 | the driver is stored exactly when a poll saw its id and the probe passed, and only then does the world change; validation never backs off |
| Lifecycle.ValidateProbeFailureQuits | mobile_automation/src/main/java/factory/BaseTest.java:361-368 | a probe failure quits the driver once, as the last call, and rethrows the probe's own exception with the slot untouched |
| Lifecycle.UnsupportedFailure | mobile_automation/src/main/java/factory/DriverFactory.java:34-35 | the exception an unknown platform ends with is the "Critical error", whose inner cause is `IllegalArgumentException` "Unsupported platform: <name>" |
| Lifecycle.Prepare | mobile_automation/src/main/java/factory/BaseTest.java:304-317 | the existing driver is quit first and its slot emptied; without an error the server runs; a service already running stays as it is |
| Lifecycle.ServerDownFailsAttempt | mobile_automation/src/main/java/factory/BaseTest.java:317 | an attempt whose server is down and comes up on none of the ten ports fails with "Failed to start Appium server: Failed to start Appium server after 10 attempts" |
| Lifecycle.RefusedAttemptFails | mobile_automation/src/main/java/factory/BaseTest.java:317-321 | an attempt that finds the server running leaves the service as it was, and with an unknown platform fails with the wrapped unsupported-platform error |
| Lifecycle.RequestDriver | mobile_automation/src/main/java/factory/BaseTest.java:321 | a returned driver is the one constructed; an unknown platform always fails the same way; the factory never backs off |
| Lifecycle.Attempt | mobile_automation/src/main/java/factory/BaseTest.java:303-370 | an attempt succeeds exactly when the reference `AttemptFailure` reports no exception, and otherwise throws exactly that exception: the server start's error, else the factory's, else "Failed to obtain valid session ID", else the probe's. Success stores the constructed, polled and probed driver with the server running; failure leaves the slot empty; the static service is what the server start left; an existing driver is quit first |
| Lifecycle.GiveUp | mobile_automation/src/main/java/factory/BaseTest.java:406-409 | the final exception is "Driver initialization failed after 3 attempts", caused by the last failure |
| Lifecycle.BackoffsAfter | mobile_automation/src/main/java/factory/BaseTest.java:392-400 | a back-off follows every failed attempt but the third |
| Lifecycle.Recover | mobile_automation/src/main/java/factory/BaseTest.java:372-403 | after a failed attempt the slot is emptied and the rest of the world kept; one two-second sleep unless it was the last attempt; an interrupt during it ends the loop |
| Lifecycle.Round | mobile_automation/src/main/java/factory/BaseTest.java:303-403 | one pass of the loop: a success stores that attempt's validated driver and adds no back-off; a failure records the attempt's own exception and the service it left, empties the slot, adds one back-off unless it was the third attempt, and ends the loop exactly when that back-off is interrupted |
| Lifecycle.RecordedJoin | mobile_automation/src/main/java/factory/BaseTest.java:372-402 | the record of a failed attempt, followed by a faithful record of the attempts after it, is faithful from that attempt on |
| Lifecycle.RecordedAttempt | mobile_automation/src/main/java/factory/BaseTest.java:302-403 | in a faithful record, attempt k found the service the previous attempt left, its recorded failure is the exception `AttemptFailure` gives for it, and in a success the last attempt threw nothing |
| Lifecycle.RetryFrom | mobile_automation/src/main/java/factory/BaseTest.java:302-404 | from attempt `retry` on: at most three attempts in all; failure i is the exception attempt i ended with, made with the service attempt i - 1 left, and in a success the last attempt threw nothing; success at attempt k after k - 1 back-offs, storing that attempt's validated driver; giving up wraps the last failure and empties the slot; the loop ends early exactly on an interrupted back-off: an early end had one, and no attempt follows an interrupted back-off |
| Lifecycle.RetryAfterFailure | mobile_automation/src/main/java/factory/BaseTest.java:392-402 | after a failed attempt and an uninterrupted back-off, the loop goes on with the next attempt; the earlier record is kept and the whole run satisfies the loop's contract, including that no attempt follows an interrupted back-off |
| Lifecycle.RefusedKeepsService | mobile_automation/src/main/java/factory/BaseTest.java:280-287 | when every attempt finds the server up, no attempt moves the static service: each finds it as `initializeDriver` did |
| Lifecycle.ServerDownRunThrows | mobile_automation/src/main/java/factory/BaseTest.java:372-409 | when no attempt's server comes up, the run throws, caused by the server start's error |
| Lifecycle.RefusedRunThrows | mobile_automation/src/main/java/factory/BaseTest.java:302-409 | when every attempt finds the server up and the platform unknown, the run throws "Driver initialization failed after 3 attempts" caused by the wrapped unsupported-platform error |
| Lifecycle.InitializeDriver | mobile_automation/src/main/java/factory/BaseTest.java:297-410 | one to three attempts, each recorded failure the exception its own attempt ended with; success on attempt k after exactly k - 1 two-second sleeps, with a validated driver in the slot; failure throws "Driver initialization failed after 3 attempts" wrapping the last failure, with the slot empty; an interrupted back-off ends the loop (no attempt follows one, and an early end had one); without interrupts, failure means three attempts and two sleeps; an unknown platform is retried and fails the same way each time; with the server down everywhere it throws, caused by the server start's error |
| Lifecycle.InterruptedBackoffEndsRun | mobile_automation/src/main/java/factory/BaseTest.java:392-409 | when the first attempt fails because the server never comes up and the back-off after it is interrupted, the loop stops after that one attempt and one sleep and still throws "Driver initialization failed after 3 attempts", caused by the server start's error, with the slot empty |
| Lifecycle.TearDown | mobile_automation/src/main/java/factory/BaseTest.java:151-193 | the slot always ends empty and nothing else changes; an empty slot makes no call; otherwise the driver is quit exactly when its session id reads non-null, and nothing sleeps |
| Lifecycle.TearDownUndoesSet | mobile_automation/src/main/java/factory/BaseTest.java:151-193 | `tearDown` after `setDriver(d)` restores the empty slot and quits `d` exactly when its id reads non-null |
| Lifecycle.TearDownIsolated | mobile_automation/src/main/java/factory/BaseTest.java:151-193 | one worker's `tearDown` leaves other workers' slots, the service and the factory's driver as they were |
| Lifecycle.TearDownTwice | mobile_automation/src/main/java/factory/BaseTest.java:151-193 | a second `tearDown` finds the slot empty and does nothing |
| Lifecycle.SetUpThenAfterClass | mobile_automation/src/main/java/factory/BaseTest.java:486-494 | once the class set-up has started the server, it runs and `afterClass` never throws: it calls `stop()` on exactly that service; when `stop()` returns, stray processes are killed and the service is stopped; when `stop()` throws, the kill is skipped and the service is left as it was |

## Left out

- Building and starting an Appium service, and `killAppiumProcesses` (shell commands, the fixed port 4723, its wait):
  each is one answer or one `Kill` event. The kill is best-effort and never fails.
- Wall-clock waiting for a started server (`BaseTest.java:555-559`) is folded into one port answer: running, timed
  out, or threw.
- Thread scheduling: `synchronized`, and `ThreadLocal` beyond a map from worker to driver. A server that stops on its
  own between steps is represented by the `serverUp` answer of each attempt.
- Logging, Allure directories and reports, `clearAppCache` (adb), and the `clearAppCache` call in `setUpMethod`.
- The `(AndroidDriver)` cast in `BaseTest.getDriver`, and the Appium/WebDriver protocol itself.
- `java.net.URI` / `URL` parsing of the server URL: a malformed URL is folded into the constructor's answer.
- Loading the properties files; a configuration is a map from keys to strings.
- `initializeDriver`'s null check on the factory result (`BaseTest.java:323`): the factory never returns null, so it
  cannot fire.
- The thread's interrupt status, which `initializeDriver` restores with `Thread.currentThread().interrupt()` when a
  back-off is interrupted (`BaseTest.java:397`): threads are not modelled, so only the loop's early end is.
- Lifecycle.SessionPoll: an `InterruptedException` from a one-second poll sleep is not modelled. Only the two-second
  back-off can be interrupted.
- DriverFactory.FactoryPoll: likewise, interrupts of its one-second sleeps are not modelled.
- JavaText.ToLower: ASCII case folding only. Locale-specific rules (such as the Turkish dotless i) and non-ASCII
  letters are not modelled.
- JavaText.ParseInt: only ASCII digits are accepted, not other Unicode decimal digits that Java also accepts.
- JavaText.ParseLong: likewise only ASCII digits; `Long.parseLong` also accepts other Unicode decimal digits.
- JavaText.JoinPath: Unix path syntax only; Windows paths are not modelled.
- JavaText.NumberFormat: the exception message follows one JDK's wording; other JDK versions word it differently.
- The evidence step of `tearDown` only logs, so it is modelled as a single session-id query.
- `quit()` answers during `initializeDriver` and `tearDown`: every `quit()` sits in its own `try`, so its answer never
  changes the outcome.
- UtilConfig.GetProperty (`mobile_automation/src/main/java/utilities/ConfigReader.java:27-29`) carries no contract of its own: it is the same
  absent-is-`null` map lookup whose meaning `Registry.Get` states, and its callers' contracts cover its results.
