# DAC streaming controller of the Red Pitaya streaming server

This project models the controller that starts and stops DAC streaming in the
Red Pitaya streaming console server
(`apps-tools/streaming_manager/src/console_server/dac_streaming.cpp`).

A start does nothing without a configuration manager. Otherwise it stores the
manager, empties the generator slot, records the verbose flag and reads the
streaming settings; if the settings are not set it stops there, else it raises
the running flag. It then resolves the DAC calibration for the board variant,
switches the output relays on 250-12 boards and stops the application left
from an earlier start. It scans the UIO device list for the `rp_dac` node and
binds a generator; if no node matches, it stops there. It then creates a
network or file streaming manager; in file mode it stops there when the format
is neither WAV nor TDMS. After either of these two early stops the running
flag stays raised and the stopped application, if any, stays in the slot. Otherwise it
composes and runs a streaming application and tells the configuration manager
that the server started. A stop stops and clears the application. Without a
configuration manager it then clears the running flag. With one, it maps the
stop reason to a message, sends it and clears the running flag, unless the
reason is unrecognised: then it sends nothing and the flag stays as it was.

The model is made of these modules:

- `Settings`: the settings snapshot and the `uint32_t` range.
- `Calibration`: the full-scale conversion, the calibration choice per board
  variant and the relay choice.
- `Binding`: the UIO scan, as functions and as the loop itself.
- `Destination`: which streaming manager a start creates.
- `Session`: the start/stop state machine, as functions `StartSpec` and
  `StopSpec` on a snapshot of the globals (`Globals`). The snapshot includes a
  record of hardware and collaborator effects (`events`). This module also
  declares the invariant `Coherent`: at most the application in the slot is
  live, and a live application implies the running flag.
- `SessionProperties`: what start and stop promise, stated over those
  functions, and the proofs that both keep `Coherent`.
- `Server`: the globals as the fields of one object, `DacServer`. Its `Start`
  and `Stop` methods change the fields step by step and are proved equal to
  `StartSpec` and `StopSpec`. They are also proved to keep `Coherent`.

The board is a build-time flag in the source, and here it is a `Variant`
value. Calls into code outside this file are not run. The calibration store,
the UIO list and the manager's `isLocalMode` answer are parameters (the
`Environment`). Creating a generator, creating a manager, starting or stopping
an application, switching a relay and sending a message are entries in the
event record.

## Model

| member | source | states |
|---|---|---|
| Settings.ToU32 | apps-tools/streaming_manager/src/console_server/dac_streaming.cpp:49-50 | storing an offset in a `uint32_t` keeps values already in range and otherwise reduces modulo 2^32 |
| Calibration.FullScaleToVoltage | apps-tools/streaming_manager/src/console_server/dac_streaming.cpp:12-18 | in exact arithmetic, a zero code gives the "no scale" gain 1 and any other code gives a gain strictly between 0 and 100 V equal to code·100/2^32 |
| Calibration.SentinelOnlyForZero | apps-tools/streaming_manager/src/console_server/dac_streaming.cpp:12-18 | in exact arithmetic, the gain is exactly 1 iff the code is 0, so the sentinel cannot be confused with a real code |
| Calibration.FullScaleToVoltageInjective | apps-tools/streaming_manager/src/console_server/dac_streaming.cpp:12-18 | in exact arithmetic, distinct codes give distinct gains |
| Calibration.FullScaleToVoltageMonotone | apps-tools/streaming_manager/src/console_server/dac_streaming.cpp:17 | in exact arithmetic, larger nonzero codes give larger gains |
| Calibration.SelectedFields | apps-tools/streaming_manager/src/console_server/dac_streaming.cpp:35-75 | which raw field set is read, as if-and-only-if conditions: front-end fields on Z10/Z20_125 with calibration on; x1 or x5 generator fields on 250-12 by gain; nothing on Z20, on a board without a branch, or with calibration off |
| Calibration.ResolveCalibration | apps-tools/streaming_manager/src/console_server/dac_streaming.cpp:35-75 | the gains handed to the generator lie in (0, 100]; it is the identity (offset 0, gain 1) unless calibration is on and the board has a branch; otherwise it holds the converted gains and the `uint32_t` offsets of the selected fields |
| Calibration.ResolveReadsOnlySelectedFields | apps-tools/streaming_manager/src/console_server/dac_streaming.cpp:54-75 | two calibration stores that agree on the selected fields give the same calibration |
| Calibration.OutputStage | apps-tools/streaming_manager/src/console_server/dac_streaming.cpp:77-82 | the relays are switched only on 250-12 boards: to 2 V iff the gain is x1, else to 10 V |
| Binding.LastDacIndex | apps-tools/streaming_manager/src/console_server/dac_streaming.cpp:89-97 | the index found is a DAC node and no later entry is; None iff no entry is a DAC node |
| Binding.DacGenerators | apps-tools/streaming_manager/src/console_server/dac_streaming.cpp:89-97 | every generator created is built on a DAC node of the list, with the settings' rate and the resolved calibration, and every DAC node of the list gets one |
| Binding.DacIndices | apps-tools/streaming_manager/src/console_server/dac_streaming.cpp:89-91 | the positions of the DAC nodes: each is a DAC node, they increase strictly, and every DAC node's position is among them |
| Binding.DacGeneratorsFollowDacNodes | apps-tools/streaming_manager/src/console_server/dac_streaming.cpp:89-96 | exactly one generator per DAC node, in list order: the k-th generator is built on the k-th DAC node |
| Binding.BoundGenerator | apps-tools/streaming_manager/src/console_server/dac_streaming.cpp:89-103 | a generator stays bound iff the list has a DAC node, and it is built on a DAC node with the given rate and calibration |
| Binding.BoundIsLastCreated | apps-tools/streaming_manager/src/console_server/dac_streaming.cpp:89-97 | the bound generator is the last one created (last match wins), and none is bound iff none was created |
| Binding.ScanUioList | apps-tools/streaming_manager/src/console_server/dac_streaming.cpp:89-97 | the loop leaves bound the generator of the last `rp_dac` node and creates exactly one generator per DAC node, in list order |
| Destination.SelectDestination | apps-tools/streaming_manager/src/console_server/dac_streaming.cpp:106-130 | network mode gives a manager on 127.0.0.1 with the settings' port. File mode gives a WAV or TDMS manager with the file settings passed through. An early return happens iff the mode is file and the format is neither. The stop callback is installed iff the mode is file |
| Destination.ManagerSpec.Hook | apps-tools/streaming_manager/src/console_server/dac_streaming.cpp:125-128 | a manager has the callback that requests a non-blocking stop iff it is a file manager; network managers have none |
| Destination.NetworkIgnoresFileSettings | apps-tools/streaming_manager/src/console_server/dac_streaming.cpp:106-109 | in network mode the file settings do not influence the manager |
| Session.StopNotification | apps-tools/streaming_manager/src/console_server/dac_streaming.cpp:174-194 | a reason has a message iff it is one of the five named reasons; no stop message is a start message; "stopped" is sent iff the reason is NR_STOP |
| Session.StopNotificationInjective | apps-tools/streaming_manager/src/console_server/dac_streaming.cpp:174-194 | distinct recognised reasons send distinct messages |
| Session.SetupEvents | apps-tools/streaming_manager/src/console_server/dac_streaming.cpp:35-82 | the calibration store is read iff the board is not Z20; on 250-12 boards both relays are switched to 2 V for gain x1 and to 10 V otherwise; every relay event is on a 250-12 board and at the gain's range, so no relay is also switched to the other range |
| Session.Scanned | apps-tools/streaming_manager/src/console_server/dac_streaming.cpp:29-97 | after the scan the running flag is raised, a generator is bound iff the list has a DAC node, and the configuration, verbose flag, application and manager slots and numbering are unchanged |
| Session.Install | apps-tools/streaming_manager/src/console_server/dac_streaming.cpp:132-141 | a new application, numbered with the next serial, runs on a new manager with the requested arguments and on the bound generator, with the verbose and test flags; its start and the start message are recorded; the other globals are unchanged |
| Session.StartSpec | apps-tools/streaming_manager/src/console_server/dac_streaming.cpp:20-151 | without a configuration manager nothing changes; otherwise the configuration and verbose flag are stored, and with set settings the flag is raised; the record only grows; the numbering advances by at most one, and only for a new application carrying the old number |
| Session.StopSpec | apps-tools/streaming_manager/src/console_server/dac_streaming.cpp:165-206 | the application slot is cleared and the other slots and the numbering are kept; the running flag stays raised exactly when it was raised, a configuration manager exists and the reason is unknown; the record only grows |
| SessionProperties.GeneratorEventsOnlyCreate | apps-tools/streaming_manager/src/console_server/dac_streaming.cpp:89-97 | the scan records exactly one creation per generator, in order, and nothing else |
| SessionProperties.StartWithUnsetSettings | apps-tools/streaming_manager/src/console_server/dac_streaming.cpp:20-27 | with unset settings a start only stores the configuration, clears the generator and records the verbose flag |
| SessionProperties.StartShape | apps-tools/streaming_manager/src/console_server/dac_streaming.cpp:20-141 | unfolding of `StartSpec` used by the other start lemmas: with set settings a start installs an application iff a generator is bound and the destination is supported; otherwise it ends right after the scan |
| SessionProperties.StartAddsScanThenInstall | apps-tools/streaming_manager/src/console_server/dac_streaming.cpp:29-141 | a start only appends to the record: the setup and scan effects first, then only a manager creation, an application start and messages |
| SessionProperties.StartTailInstallsOnly | apps-tools/streaming_manager/src/console_server/dac_streaming.cpp:106-141 | past the scan a start records only a manager creation, an application start and messages, so the manager and application steps touch neither calibration nor relays |
| SessionProperties.StartHardwareSetup | apps-tools/streaming_manager/src/console_server/dac_streaming.cpp:35-82 | the calibration store is read iff the board is not Z20. 250-12 boards switch both relays to the gain's range and never to the other range. Other boards switch none |
| SessionProperties.SetupEventsKinds | apps-tools/streaming_manager/src/console_server/dac_streaming.cpp:35-82 | the setup only reads the calibration store and switches relays, and relays only on 250-12 boards and only to the gain's range |
| SessionProperties.ScanHardwareSetup | apps-tools/streaming_manager/src/console_server/dac_streaming.cpp:35-97 | the setup and scan events read the calibration iff not Z20, set relays exactly on 250-12 boards, both to the gain's range, and never to the other range |
| SessionProperties.StartStopsSlotFirst | apps-tools/streaming_manager/src/console_server/dac_streaming.cpp:84-97 | the application left in the slot is stopped before any generator is created |
| SessionProperties.ScanStopsSlotFirst | apps-tools/streaming_manager/src/console_server/dac_streaming.cpp:35-97 | within the setup and scan, the slot's application is stopped right after the setup and before any generator is created |
| SessionProperties.StartBindsLastDacNode | apps-tools/streaming_manager/src/console_server/dac_streaming.cpp:89-97 | the bound generator is built on the last `rp_dac` node, with the settings' rate and the resolved calibration |
| SessionProperties.ScanEventsQuiet | apps-tools/streaming_manager/src/console_server/dac_streaming.cpp:35-97 | up to the end of the scan no message is sent and no application started; the only application stopped is the one in the slot |
| SessionProperties.StartWithoutDacNode | apps-tools/streaming_manager/src/console_server/dac_streaming.cpp:99-103 | with no DAC node the start aborts: no generator, manager, application or message. The running flag stays raised. The slot still refers to the application just stopped |
| SessionProperties.StartWithUnsupportedFormat | apps-tools/streaming_manager/src/console_server/dac_streaming.cpp:118-124 | an unsupported file format aborts the start with no manager, application or message, the running flag raised and the stopped application still in the slot |
| SessionProperties.InstallReports | apps-tools/streaming_manager/src/console_server/dac_streaming.cpp:132-141 | installing sends exactly one message, started-SD iff the manager is in local mode, else started, and records nothing but the manager creation, the application start and that message |
| SessionProperties.StaleSlotStoppedTwice | apps-tools/streaming_manager/src/console_server/dac_streaming.cpp:84-103 | after a start that aborts for want of a DAC node, the slot still refers to the application it stopped, so the next stop stops the same application a second time |
| SessionProperties.StopAdds | apps-tools/streaming_manager/src/console_server/dac_streaming.cpp:165-196 | unfolding of `StopSpec` used by the other stop lemmas: a stop appends exactly the stop of the slot's application, if any, followed by the reason's message when a configuration manager exists and the reason is recognised |
| SessionProperties.StopStopsSlotFirst | apps-tools/streaming_manager/src/console_server/dac_streaming.cpp:167-172 | a stop records the stop of the slot's application first, after everything already recorded |
| SessionProperties.StartSucceeds | apps-tools/streaming_manager/src/console_server/dac_streaming.cpp:106-141 | with a DAC node and a supported destination, the new application is live. It runs on the new manager (of the selected kind) and the bound generator, with the verbose and test flags, and the server is running |
| SessionProperties.StartSucceedsReportsOnce | apps-tools/streaming_manager/src/console_server/dac_streaming.cpp:136-141 | a successful start sends exactly one message, the local-mode one iff the manager reports local mode |
| SessionProperties.QuietEventsPreserveCoherent | apps-tools/streaming_manager/src/console_server/dac_streaming.cpp:29-103 | the setup and scan steps keep the invariant |
| SessionProperties.InstallPreservesCoherent | apps-tools/streaming_manager/src/console_server/dac_streaming.cpp:132-136 | installing a fresh application when none is live keeps the invariant |
| SessionProperties.StartPreservesCoherent | apps-tools/streaming_manager/src/console_server/dac_streaming.cpp:20-151 | every start keeps the invariant, on every exit path |
| SessionProperties.OnlySlotApplicationIsLive | apps-tools/streaming_manager/src/console_server/dac_streaming.cpp:84-136 | under the invariant, a live application is the one in the slot, so no two applications are live at once |
| SessionProperties.StopClearsApplication | apps-tools/streaming_manager/src/console_server/dac_streaming.cpp:167-172 | a stop stops and clears the slot's application and leaves the manager, generator, configuration, verbose flag and numbering alone; a second stop stops nothing |
| SessionProperties.StopNotifies | apps-tools/streaming_manager/src/console_server/dac_streaming.cpp:173-196 | with a configuration manager each recognised reason sends its own message and clears the running flag. An unknown reason sends nothing and keeps the flag, because the throw skips the clear. Without a manager nothing is sent and the flag is cleared |
| SessionProperties.StopPreservesCoherent | apps-tools/streaming_manager/src/console_server/dac_streaming.cpp:165-206 | a stop keeps the invariant and leaves no application live |
| Server.DacServer.constructor | apps-tools/streaming_manager/src/console_server/dac_streaming.cpp:4-10 | the globals start empty and not running, and satisfy the invariant |
| Server.DacServer.Start | apps-tools/streaming_manager/src/console_server/dac_streaming.cpp:20-151 | the new globals are `StartSpec` of the old ones, and the invariant is kept |
| Server.DacServer.Scan | apps-tools/streaming_manager/src/console_server/dac_streaming.cpp:29-97 | from raising the flag to the end of the scan, the globals become `Scanned` of the old ones |
| Server.DacServer.PrepareHardware | apps-tools/streaming_manager/src/console_server/dac_streaming.cpp:35-82 | returns the resolved calibration and records exactly the calibration read and relay settings, changing nothing else |
| Server.DacServer.ReleaseApp | apps-tools/streaming_manager/src/console_server/dac_streaming.cpp:84-87 | stops the slot's application and keeps the slot referring to it |
| Server.DacServer.BindGenerator | apps-tools/streaming_manager/src/console_server/dac_streaming.cpp:89-97 | binds the generator of the last DAC node and records one creation per DAC node, changing nothing else |
| Server.DacServer.InstallApp | apps-tools/streaming_manager/src/console_server/dac_streaming.cpp:106-141 | the globals become `Install` of the old ones: new manager, new application, next serial, the start message |
| Server.DacServer.Stop | apps-tools/streaming_manager/src/console_server/dac_streaming.cpp:165-206 | the new globals are `StopSpec` of the old ones, and the invariant is kept |
| Server.DacServer.StopNonBlocking | apps-tools/streaming_manager/src/console_server/dac_streaming.cpp:153-162 | only records a request to stop with the given reason, and keeps the invariant |
| Server.DacServer.PlaybackStopped | apps-tools/streaming_manager/src/console_server/dac_streaming.cpp:125-128 | a file manager's end-of-playback callback requests a non-blocking stop with the reported reason, and keeps the invariant |
| Server.DacServer.RunRequestedStop | apps-tools/streaming_manager/src/console_server/dac_streaming.cpp:153-156 | the detached thread of a requested stop runs the stop with the requested reason |
| Server.WavPlaybackScenario | apps-tools/streaming_manager/src/console_server/dac_streaming.cpp:118-128 | a local WAV session on a Z10 board sends started-SD. At the end of the file it sends stopped-SD-done and leaves the server not running |

## Left out

- Calibration.FullScaleToVoltage: computed exactly over `real`. The source rounds to single-precision `float`, and there the bounds do not all hold: code 4294967295 converts to exactly 100.0 (not below 100), and codes 42949670 to 42949674 convert to exactly 1.0.
- Calibration.SentinelOnlyForZero: holds only for the exact value. With the source's `float` rounding, codes 42949670 to 42949674 also give gain 1.0 and so cannot be told apart from the "no scale" sentinel.
- Calibration.FullScaleToVoltageInjective: holds only for the exact value. Float rounding merges neighbouring codes.
- Calibration.FullScaleToVoltageMonotone: holds only for the exact value. With float rounding the order is only non-strict.
- Concurrency: `stopDACNonBlocking` runs the stop on a detached thread, and the running flag is a `std::atomic_bool`. The model sequences the request (`StopNonBlocking`) and its later run (`RunRequestedStop`) as separate steps and does not model interleavings.
- Diagnostics on stderr, syslog and stdout, including the verbose-mode start and stop lines: they do not affect state.
- Exceptions from the collaborators (settings access, calibration store, generator, manager and application constructors, thread creation): the `try`/`catch` around them is modelled only for the "Unknown state" throw in the stop.
- Memory ownership: the `delete` of the old application is the `AppStopped` event. The dangling pointer that remains in the slot after an aborted start is modelled as the slot still holding the stopped application. A later stop or start then records a second `AppStopped` of it; in the source that second `stop()` and `delete` act on freed memory, which the model does not capture.
- The return value of `rp_CalibInit` and the contents of the calibration store beyond the fields the start reads. The DAC_FREQUENCY constant and the two `true` flags passed to `CGenerator::Create` do not vary and are not recorded.
- `GetUioList`, `CGenerator`, `CDACStreamingManager`, `CDACStreamingApplication`, `ServerNetConfigManager` and the MAX7311 driver are not part of this model. Their answers are parameters and their actions are events.
- The settings' port, rate, repeat mode, repeat count and memory budget are passed through unchanged and are kept as plain integers, not as their C++ types.
